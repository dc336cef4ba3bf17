// A modified order is not watched anew: exactly which requests for one order let it be paid on a
// balance that does not cover what is asked for.
module Uncovered {
  import opened Definitions
  import opened Ledger
  import opened Chains
  import opened Watching
  import opened Protocol
  import opened Safety
  import opened Scenarios

  // --- What an order was asked for, in order ---

  /** What the stored versions of this order ask for, oldest first. */
  function AskedFor(c: Config, versions: seq<(Id, OrderInfo)>, id: Id): seq<(Text, u128)> {
    if |versions| == 0 then []
    else
      var (of, o) := versions[|versions| - 1];
      AskedFor(c, versions[..|versions| - 1], id) + if of == id then [Terms(c, o)] else []
  }

  lemma StoredIsAskedFor(c: Config, d: Durable, of: Id, o: OrderInfo, id: Id)
    ensures AskedFor(c, StoreVersion(d, of, o).versions, id)
         == AskedFor(c, d.versions, id) + if of == id then [Terms(c, o)] else []
  {
    assert (d.versions + [(of, o)])[..|d.versions|] == d.versions;
  }

  lemma {:induction false} VersionIsAskedFor(c: Config, versions: seq<(Id, OrderInfo)>, id: Id, o: OrderInfo)
    requires (id, o) in versions
    ensures Terms(c, o) in AskedFor(c, versions, id)
  {
    hide Terms;
    var front, last := versions[..|versions| - 1], versions[|versions| - 1];
    if last != (id, o) {
      VersionIsAskedFor(c, front, id, o);
    }
  }

  // --- The record is the last version ---

  /** The record asks for what was asked for last. */
  ghost predicate AsksForLast(c: Config, d: Durable, id: Id)
    requires id in d.db
  {
    var asked := AskedFor(c, d.versions, id);
    |asked| > 0 && asked[|asked| - 1] == Terms(c, d.db[id])
  }

  ghost predicate AllAskForLast(c: Config, d: Durable) {
    forall id :: id in d.db ==> AsksForLast(c, d, id)
  }

  lemma StoredAsksForLast(c: Config, d: Durable, of: Id, o: OrderInfo)
    requires AllAskForLast(c, d)
    ensures AllAskForLast(c, StoreVersion(d, of, o))
  {
    hide Terms, AskedFor;
    var d' := StoreVersion(d, of, o);
    forall id | id in d'.db ensures AsksForLast(c, d', id) {
      StoredIsAskedFor(c, d, of, o, id);
      assert id != of ==> AsksForLast(c, d, id);
    }
  }

  lemma PaidAsksForLast(c: Config, d: Durable, id: Id)
    requires AllAskForLast(c, d)
    ensures AllAskForLast(c, d.(db := MarkPaid(d.db, id).0))
  {
    hide AskedFor;
    var d' := d.(db := MarkPaid(d.db, id).0);
    forall x | x in d'.db ensures AsksForLast(c, d', x) {
      assert AsksForLast(c, d, x);
    }
  }

  lemma TakeAsksForLast(c: Config, s: World, now: u64)
    requires AllAskForLast(c, s.d) && s.ctl.Idle? && |s.stateQ| > 0
    ensures AllAskForLast(c, TakeStateMsg(c, s, now).d)
  {
    hide AllAskForLast, WatchOf, StoreVersion, MarkPaid, ValidUtf8, DeathAt, Terms;
    if s.stateQ[0].OrderPaid? {
      PaidAsksForLast(c, s.d, s.stateQ[0].id);
    } else if s.stateQ[0].CreateInvoice? {
      forall of, o { StoredAsksForLast(c, s.d, of, o); }
    }
  }

  lemma StepAsksForLast(c: Config, s: World, st: Step)
    requires AllAskForLast(c, s.d) && Enabled(c, s, st)
    ensures AllAskForLast(c, Apply(c, s, st).d)
  {
    if st.StateTake? {
      TakeAsksForLast(c, s, st.now);
      hide TakeStateMsg;
    } else {
      OthersStoreNothing(c, s, st);
      hide Apply, Enabled;
      SameAsksForLast(c, s.d, Apply(c, s, st).d);
    }
  }

  lemma SameAsksForLast(c: Config, d: Durable, d': Durable)
    requires AllAskForLast(c, d) && d'.db == d.db && d'.versions == d.versions
    ensures AllAskForLast(c, d')
  {
    hide AskedFor, Terms;
    forall id | id in d'.db ensures AsksForLast(c, d', id) {
      assert AsksForLast(c, d, id);
    }
  }

  lemma OthersStoreNothing(c: Config, s: World, st: Step)
    requires Enabled(c, s, st) && !st.StateTake?
    ensures Apply(c, s, st).d.db == s.d.db && Apply(c, s, st).d.versions == s.d.versions
  {
    if OfTrackers(st) {
      TrackerFrame(c, s, st);
      hide Apply, Enabled;
    } else if OfManager(st) {
      ManagerFrame(c, s, st);
      hide Apply, Enabled;
    } else if OfState(st) {
      StateFrame(c, s, st);
      hide Apply, Enabled;
    } else if st.PayoutStart? {
      PayoutFrame(c, s, st);
      hide Apply, Enabled;
    }
  }

  lemma {:induction false} RunsAskForLast(c: Config, s: World, steps: seq<Step>, s': World)
    requires AllAskForLast(c, s.d) && Runs(c, s, steps, s')
    ensures AllAskForLast(c, s'.d)
    decreases |steps|
  {
    if |steps| > 0 {
      StepAsksForLast(c, s, steps[0]);
      hide AllAskForLast, Apply, Enabled;
      RunsAskForLast(c, Apply(c, s, steps[0]), steps[1..], s');
    }
  }

  lemma RecordIsLast(c: Config, s: World, id: Id)
    requires Reachable(c, s) && id in s.d.db
    ensures AsksForLast(c, s.d, id)
  {
    var steps :| Runs(c, Init(c), steps, s);
    hide AsksForLast;
    RunsAskForLast(c, Init(c), steps, s);
  }

  // --- Which histories can be paid uncovered ---

  /** Some earlier request asked for less than the last one, or for another currency. */
  ghost predicate AskedLess(asked: seq<(Text, u128)>) {
    exists n :: 0 <= n < |asked| && AsksLess(asked[n], asked[|asked| - 1])
  }

  /** The order was asked for like this, and is paid although nothing seen covers its record. */
  ghost predicate PaidUncovered(c: Config, s: World, id: Id, asked: seq<(Text, u128)>) {
    && Reachable(c, s) && id in s.d.db && s.d.db[id].paymentStatus.Paid?
    && AskedFor(c, s.d.versions, id) == asked
    && forall e :: e in s.d.evidence ==> !CoversRecord(c, s.d, id, e)
  }

  /** Under some history of the chains, some run pays the order uncovered. */
  ghost predicate CanBePaidUncovered(c: Config, id: Id, asked: seq<(Text, u128)>) {
    exists b: Config, s: World :: PaidUncovered(b, s, id, asked) && b.Valid() && b == c.(block := b.block)
  }

  /** Whatever reachable state it is: paid uncovered, some earlier request asked for less. */
  lemma UncoveredOnlyIf(c: Config, s: World, id: Id, asked: seq<(Text, u128)>)
    requires c.Valid() && PaidUncovered(c, s, id, asked)
    ensures AskedLess(asked)
  {
    RecordIsLast(c, s, id);
    hide Reachable, AskedFor, Terms, AsksLess, Observed;
    if forall o :: (id, o) in s.d.versions ==> !AsksLess(Terms(c, o), Terms(c, s.d.db[id])) {
      PaidIsCovered(c, s, id);
      assert false;
    }
    var o :| (id, o) in s.d.versions && AsksLess(Terms(c, o), Terms(c, s.d.db[id]));
    VersionIsAskedFor(c, s.d.versions, id, o);
    var n :| 0 <= n < |asked| && asked[n] == Terms(c, o);
  }

  // --- The run ---

  function AllTerms(c: Config, assets: Assets, qs: seq<OrderQuery>): (r: seq<(Text, u128)>)
    requires forall q :: q in qs ==> q.currency in assets
    ensures |r| == |qs| && forall n :: 0 <= n < |qs| ==> r[n] == TermsOf(c, assets, qs[n])
  {
    seq(|qs|, n requires 0 <= n < |qs| => TermsOf(c, assets, qs[n]))
  }

  lemma StoredAsks(c: Config, assets: Assets, id: Id, q: OrderQuery, d: Durable)
    requires q.currency in assets && q.order == id
    requires id in d.db ==> d.db[id].paymentStatus.Pending?
    ensures AskedFor(c, Stored(c, assets, d, q).versions, id) == AskedFor(c, d.versions, id) + [TermsOf(c, assets, q)]
  {
    forall o { StoredIsAskedFor(c, d, id, o, id); }
    hide AskedFor, StoreVersion, ValidUtf8;
  }

  lemma StaysPending(c: Config, assets: Assets, id: Id, qs: seq<OrderQuery>)
    requires c.Valid() && ForOneOrder(assets, id, qs)
    ensures var d := After(c, assets, qs); id in d.db ==> d.db[id].paymentStatus.Pending?
  {
    if |qs| > 0 {
      AfterIsPending(c, assets, id, qs);
      hide After, Config.Valid;
    }
  }

  lemma {:induction false} AfterAsks(c: Config, assets: Assets, id: Id, qs: seq<OrderQuery>)
    requires c.Valid() && ForOneOrder(assets, id, qs)
    ensures AskedFor(c, After(c, assets, qs).versions, id) == AllTerms(c, assets, qs)
  {
    hide Stored, TermsOf, Acceptable, Terms;
    if |qs| > 0 {
      var front, q := qs[..|qs| - 1], qs[|qs| - 1];
      AfterAsks(c, assets, id, front);
      StaysPending(c, assets, id, front);
      hide AskedFor;
      StoredAsks(c, assets, id, q, After(c, assets, front));
      assert AllTerms(c, assets, front) + [TermsOf(c, assets, q)] == AllTerms(c, assets, qs);
    }
  }

  /** Every request is for a currency of a chain that connects. */
  ghost predicate AllOffered(chains: seq<Chain>, reports: seq<NodeReport>, qs: seq<OrderQuery>)
    requires |chains| == |reports|
  {
    forall q :: q in qs ==> exists t :: Offered(chains, reports, t, q.currency)
  }

  lemma UncoveredIf(c: Config, reports: seq<NodeReport>, id: Id, qs: seq<OrderQuery>, n: nat)
    requires c.Valid() && |c.chains| == |reports|
    requires ForOneOrder(Currencies(c.chains, reports, |c.chains|), id, qs) && AllOffered(c.chains, reports, qs)
    requires n < |qs|
    requires var asked := AllTerms(c, Currencies(c.chains, reports, |c.chains|), qs);
             AsksLess(asked[n], asked[|asked| - 1])
    ensures CanBePaidUncovered(c, id, AllTerms(c, Currencies(c.chains, reports, |c.chains|), qs))
  {
    hide CanReach, Currencies, Acceptable, HoldsExactly, Reachable, Offered, AskedFor, After, JustPaid, PaidUncovered, Learned,
      StorePaid, Flat;
    var all := Currencies(c.chains, reports, |c.chains|);
    var t: nat :| Offered(c.chains, reports, t, qs[n].currency);
    var amount := TermsOf(c, all, qs[n]).1;
    var b := c.(block := Flat(amount));
    FlatHolds(c, amount);
    OfferedLearned(c.chains, reports, t, qs[n].currency);
    var s, i, w := PaidRun(b, reports, id, qs, n, t);
    CanReachIsReachable(b, s);
    JustPaidThen(s, StorePaid(Seen(After(b, all, qs), Sight(t, Learned(c.chains, reports, t).value, i)), id), t,
                 Learned(c.chains, reports, t).value, i, w);
    PaidWithThis(b, all, id, qs, Sight(t, Learned(c.chains, reports, t).value, i), s);
    assert AllTerms(b, all, qs) == AllTerms(c, all, qs);
  }

  lemma JustPaidThen(s: World, d: Durable, t: nat, assets: Assets, i: Invoice, w: Watch)
    requires JustPaid(s, d, t, assets, i, w)
    ensures s.d == d
  {
  }

  lemma OfferedLearned(chains: seq<Chain>, reports: seq<NodeReport>, t: nat, n: Text)
    requires |chains| == |reports| && Offered(chains, reports, t, n)
    ensures t < |chains| && Learned(chains, reports, t).Some?
  {
  }

  /** Paid on one sight of a balance that falls short of the last request, or is of another currency. */
  lemma PaidWithThis(c: Config, assets: Assets, id: Id, qs: seq<OrderQuery>, e: Evidence, s: World)
    requires c.Valid() && ForOneOrder(assets, id, qs) && |qs| > 0 && Reachable(c, s)
    requires s.d == StorePaid(Seen(After(c, assets, qs), e), id) && e.balance == e.invoice.amount
    requires AsksLess((e.invoice.currency, e.invoice.amount), TermsOf(c, assets, qs[|qs| - 1]))
    ensures PaidUncovered(c, s, id, AllTerms(c, assets, qs))
  {
    AfterAsks(c, assets, id, qs);
    AfterIsPending(c, assets, id, qs);
    hide Reachable, AskedFor, After, Config.Valid;
    assert s.d.evidence == {e};
    assert Terms(c, s.d.db[id]) == TermsOf(c, assets, qs[|qs| - 1]);
  }

  /**
   * The exact condition, on the requests for one order. Some run makes just these requests for it,
   * one after the other, and then has it paid although no balance anybody saw covers the record,
   * exactly if an earlier request asked for less than the last one, or for another currency.
   */
  lemma UncoveredIff(c: Config, reports: seq<NodeReport>, id: Id, qs: seq<OrderQuery>)
    requires c.Valid() && |c.chains| == |reports|
    requires ForOneOrder(Currencies(c.chains, reports, |c.chains|), id, qs) && AllOffered(c.chains, reports, qs)
    ensures var asked := AllTerms(c, Currencies(c.chains, reports, |c.chains|), qs);
            CanBePaidUncovered(c, id, asked) <==> AskedLess(asked)
  {
    hide Currencies, Acceptable, Offered, PaidUncovered, AsksLess;
    var asked := AllTerms(c, Currencies(c.chains, reports, |c.chains|), qs);
    if CanBePaidUncovered(c, id, asked) {
      var b, s :| PaidUncovered(b, s, id, asked) && b.Valid() && b == c.(block := b.block);
      UncoveredOnlyIf(b, s, id, asked);
    }
    if AskedLess(asked) {
      var n :| 0 <= n < |asked| && AsksLess(asked[n], asked[|asked| - 1]);
      UncoveredIf(c, reports, id, qs, n);
    }
  }
}
