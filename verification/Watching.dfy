// One chain tracker: the invoices it watches, and what a block or a new connection does to them.
module Watching {
  import opened Definitions
  import opened Chains

  /** Who holds the other end of a request's reply channel. */
  datatype Caller = StateTask | RestoreTask

  /** A request to watch or to pay out an order, with its reply channel. */
  datatype Watch = Watch(
    id: Id, address: Account, currency: Text, amount: u128, recipient: Account, death: u64, caller: Caller)

  datatype Invoice = Invoice(id: Id, address: Account, currency: Text, amount: u128, recipient: Account, death: u64)

  function FromRequest(w: Watch): Invoice {
    Invoice(w.id, w.address, w.currency, w.amount, w.recipient, w.death)
  }

  /**
   * What a tracker can see of one block of its chain: balances by account and asset id, whether the
   * events can be read, and which accounts a transfer went to. Blocks.Node.Data makes it from a node.
   */
  datatype BlockData = BlockData(
    balance: (Account, Option<u32>) -> u128,
    eventsReadable: bool,
    transferred: Account -> bool)

  /** A balance as fetched; None when the fetch failed. */
  type Answer = Option<u128>

  /** Which balance of an account counts: that of the asset the connection has under this name, or the native one. */
  function AssetOf(assets: Assets, currency: Text): Option<u32> {
    if currency in assets then assets[currency].assetId else None
  }

  /** Invoice::balance at this block: an unknown currency and a failing node give no answer. */
  predicate Fetched(b: BlockData, assets: Assets, i: Invoice, a: Answer) {
    a.Some? ==> i.currency in assets && a.value == b.balance(i.address, AssetOf(assets, i.currency))
  }

  /** The check of an invoice against a fetched balance: Ok(true). */
  predicate Covers(i: Invoice, a: Answer) {
    a.Some? && a.value >= i.amount
  }

  /** The deadline test as written. It holds while the deadline is still ahead. */
  predicate Due(i: Invoice, now: u64) {
    i.death >= now
  }

  /** What the tracker learns about one invoice in one round: two tests, a balance fetched for each. */
  datatype Visit = Visit(transfer: bool, atTransfer: Answer, due: bool, atDue: Answer)

  predicate Answered(b: BlockData, assets: Assets, i: Invoice, v: Visit) {
    Fetched(b, assets, i, v.atTransfer) && Fetched(b, assets, i, v.atDue)
  }

  /** A round over a block looks for a transfer and takes the deadline test; a new connection checks each invoice once. */
  predicate BlockVisit(b: BlockData, assets: Assets, i: Invoice, now: u64, v: Visit) {
    Answered(b, assets, i, v) && v.transfer == b.transferred(i.address) && v.due == Due(i, now)
  }

  predicate CatchUpVisit(b: BlockData, assets: Assets, i: Invoice, v: Visit) {
    Answered(b, assets, i, v) && v.transfer && !v.due
  }

  /** How often the visit reports the order paid. */
  function Reports(i: Invoice, v: Visit): nat {
    (if v.transfer && Covers(i, v.atTransfer) then 1 else 0) + (if v.due && Covers(i, v.atDue) then 1 else 0)
  }

  /** Whether the invoice leaves the watch map at the end of the round. */
  predicate Dropped(i: Invoice, v: Visit) {
    (v.transfer && Covers(i, v.atTransfer)) || (v.due && v.atDue.Some?)
  }

  /**
   * An invoice leaves only when reported paid, or when due and its balance was fetched. So an
   * unpaid invoice stays exactly when its deadline has passed or the fetch failed: the live one
   * is dropped, the expired one kept.
   */
  lemma UnpaidStaysIff(b: BlockData, assets: Assets, i: Invoice, now: u64, v: Visit)
    requires BlockVisit(b, assets, i, now, v) && Reports(i, v) == 0
    ensures !Dropped(i, v) <==> i.death < now || v.atDue.None?
  {
  }

  lemma LeavesOnlyIf(i: Invoice, v: Visit)
    requires Dropped(i, v)
    ensures Reports(i, v) > 0 || (v.due && v.atDue.Some? && !Covers(i, v.atDue))
  {
  }

  function Remaining(watched: map<Id, Invoice>, visits: map<Id, Visit>): map<Id, Invoice> {
    map id | id in watched && !(id in visits && Dropped(watched[id], visits[id])) :: watched[id]
  }

  function Reported(watched: map<Id, Invoice>, visits: map<Id, Visit>, id: Id): nat {
    if id in watched && id in visits then Reports(watched[id], visits[id]) else 0
  }

  /** The state a tracker task keeps over all its connections, and the messages it sent to the State. */
  class Tracker {
    var watched: map<Id, Invoice>
    var orderPaid: seq<Id>

    constructor ()
      ensures watched == map[] && orderPaid == []
    {
      watched, orderPaid := map[], [];
    }

    /** A watch request replaces what was watched under its id. */
    method Add(w: Watch)
      modifies this`watched
      ensures watched == old(watched)[w.id := FromRequest(w)]
    {
      watched := watched[w.id := FromRequest(w)];
    }

    /** The loop body for one invoice; an order may be reported, and listed for removal, twice. */
    method VisitOne(id: Id, i: Invoice, v: Visit) returns (removals: seq<Id>)
      modifies this`orderPaid
      ensures old(orderPaid) <= orderPaid
      ensures multiset(orderPaid) == multiset(old(orderPaid))[id := multiset(old(orderPaid))[id] + Reports(i, v)]
      ensures forall r :: r in removals ==> r == id
      ensures id in removals <==> Dropped(i, v)
    {
      removals := [];
      if v.transfer && Covers(i, v.atTransfer) {
        orderPaid := orderPaid + [id];
        removals := removals + [id];
      }
      if v.due && v.atDue.Some? {
        if Covers(i, v.atDue) {
          orderPaid := orderPaid + [id];
        }
        removals := removals + [id];
      }
    }

    /**
     * One round over the watch map, whatever order the map yields: the remaining invoices and the
     * number of reports of every order are those of the per-invoice specification.
     */
    method Round(visits: map<Id, Visit>)
      requires watched.Keys <= visits.Keys
      modifies this
      ensures watched == Remaining(old(watched), visits)
      ensures old(orderPaid) <= orderPaid
      ensures forall id: Id ::
                multiset(orderPaid)[id] == multiset(old(orderPaid))[id] + Reported(old(watched), visits, id)
    {
      hide ValidUtf8, Reports, Dropped;
      var idRemoveList: seq<Id> := [];
      var rest := watched.Keys;
      while rest != {}
        invariant rest <= watched.Keys && watched == old(watched)
        invariant old(orderPaid) <= orderPaid
        invariant forall id: Id :: multiset(orderPaid)[id]
                    == multiset(old(orderPaid))[id] + (if id in rest then 0 else Reported(watched, visits, id))
        invariant forall id: Id :: id in idRemoveList <==> id in watched && id !in rest && Dropped(watched[id], visits[id])
        decreases rest
      {
        var id :| id in rest;
        rest := rest - {id};
        var removals := VisitOne(id, watched[id], visits[id]);
        idRemoveList := idRemoveList + removals;
      }
      RemoveAll(idRemoveList);
    }

    /** The list may hold an id twice. */
    method RemoveAll(ids: seq<Id>)
      modifies this`watched
      ensures watched == map id | id in old(watched) && id !in ids :: old(watched)[id]
    {
      for k := 0 to |ids|
        invariant watched == map id | id in old(watched) && id !in ids[..k] :: old(watched)[id]
      {
        assert ids[..k + 1] == ids[..k] + [ids[k]];
        watched := watched - {ids[k]};
      }
      assert ids[..|ids|] == ids;
    }

    /** A block: transfers in its events and the deadline decide which balances are fetched. */
    method ProcessBlock(ghost b: BlockData, assets: Assets, now: u64, visits: map<Id, Visit>)
      requires watched.Keys <= visits.Keys
      requires forall id :: id in watched ==> BlockVisit(b, assets, watched[id], now, visits[id])
      modifies this
      ensures watched.Keys <= old(watched).Keys
      ensures forall id :: id in old(watched) ==>
                (id !in watched <==>
                   multiset(orderPaid)[id] > multiset(old(orderPaid))[id]
                   || (Due(old(watched)[id], now) && visits[id].atDue.Some?))
      ensures forall id :: id in watched ==> watched[id] == old(watched)[id]
      ensures forall id: Id ::
                multiset(orderPaid)[id] == multiset(old(orderPaid))[id] + Reported(old(watched), visits, id)
      ensures forall id: Id :: multiset(orderPaid)[id] <= multiset(old(orderPaid))[id] + 2
      ensures forall id: Id :: multiset(orderPaid)[id] > multiset(old(orderPaid))[id] ==>
                id in old(watched) && HoldsEnough(b, assets, old(watched)[id])
    {
      Round(visits);
      forall id | id in old(watched)
        ensures id !in watched <==>
                  multiset(orderPaid)[id] > multiset(old(orderPaid))[id]
                  || (Due(old(watched)[id], now) && visits[id].atDue.Some?)
      {
        assert BlockVisit(b, assets, old(watched)[id], now, visits[id]);
      }
    }

    /** A successful connection checks every watched invoice once and drops exactly the paid ones. */
    method CatchUp(ghost b: BlockData, assets: Assets, answers: map<Id, Answer>)
      requires watched.Keys <= answers.Keys
      requires forall id :: id in watched ==> Fetched(b, assets, watched[id], answers[id])
      modifies this
      ensures watched == map id | id in old(watched) && !Covers(old(watched)[id], answers[id]) :: old(watched)[id]
      ensures forall id: Id :: multiset(orderPaid)[id] == multiset(old(orderPaid))[id]
                + (if id in old(watched) && Covers(old(watched)[id], answers[id]) then 1 else 0)
      ensures forall id :: id in old(watched) && id !in watched ==> HoldsEnough(b, assets, old(watched)[id])
    {
      Round(map id | id in answers :: Visit(true, answers[id], false, None));
    }
  }

  /** At this block the account holds at least the amount, in the asset the connection has for the currency. */
  predicate HoldsEnough(b: BlockData, assets: Assets, i: Invoice) {
    i.currency in assets && b.balance(i.address, AssetOf(assets, i.currency)) >= i.amount
  }
}
