// What a restart brings back, and what a change of endpoints keeps.
module Recovery {
  import opened Definitions
  import opened Ledger
  import opened Chains
  import opened Watching
  import opened Protocol
  import opened Replies
  import opened Safety
  import opened Deadlock
  import Store

  // --- The restore task ---

  /** The manager winds down only after the shutdown was requested, or when nobody can call it. */
  ghost predicate WindsDownIfCancelled(s: World) {
    s.cancelled
    || (&& !s.ctl.Stopping? && s.ctl != Sending(MShutdown) && MShutdown !in s.managerQ && !s.mctl.Draining?
        && (s.mctl.Gone? ==> NoSenders(s)))
  }

  /** How many rows of the list are done with. */
  function Done(s: World): int {
    |s.booted| - |s.restore|
  }

  ghost predicate Submits(c: Config, row: (Id, OrderInfo), w: Watch) {
    WatchOf(c, row.0, row.1, RestoreTask) == Some(w)
  }

  ghost predicate FromList(c: Config, rows: seq<(Id, OrderInfo)>, w: Watch) {
    exists i :: 0 <= i < |rows| && Submits(c, rows[i], w)
  }

  ghost predicate RowsApart(rows: seq<(Id, OrderInfo)>) {
    forall i, j :: 0 <= i < j < |rows| ==> rows[i].0 != rows[j].0
  }

  ghost predicate WatchesApart(q: seq<Watch>) {
    forall i, j :: 0 <= i < j < |q| ==> q[i].id != q[j].id
  }

  /** The submissions are those of the rows done with; until a shutdown is requested, one for each of them in order. */
  ghost predicate Listed(c: Config, s: World) {
    && 0 <= Done(s) && s.restore == s.booted[Done(s)..]
    && RowsApart(s.booted) && WatchesApart(s.submitted)
    && (forall w :: w in s.submitted ==> FromList(c, s.booted[..Done(s)], w))
    && (!s.cancelled ==>
          && |s.submitted| == Done(s)
          && forall i :: 0 <= i < Done(s) ==> Submits(c, s.booted[i], s.submitted[i]))
  }

  /** Before the restore list is read nothing has been submitted. */
  ghost predicate Unread(s: World) {
    s.ctl.Booting? ==> s.booted == [] && s.restore == [] && s.submitted == []
  }

  ghost predicate Recovering(c: Config, s: World) {
    WindsDownIfCancelled(s) && Listed(c, s) && Unread(s)
  }

  lemma RowsParse(c: Config, s: World, id: Id, o: OrderInfo)
    requires Sound(c, s) && (id, o) in s.restore
    ensures WatchOf(c, id, o, RestoreTask).Some? && WatchOf(c, id, o, RestoreTask).value.id == id
  {
    assert (id, o) in s.d.versions;
  }

  lemma ListedKept(c: Config, s: World, s': World)
    requires Listed(c, s) && s'.booted == s.booted && s'.restore == s.restore && s'.submitted == s.submitted
    requires s.cancelled ==> s'.cancelled
    ensures Listed(c, s')
  {
    hide Submits, FromList, RowsApart, WatchesApart;
  }

  lemma DoneIsListed(c: Config, s: World)
    requires Listed(c, s) && |s.restore| > 0
    ensures var n := Done(s);
            && n < |s.booted| && s.booted[n] == s.restore[0] && s.restore[1..] == s.booted[n + 1..]
            && forall w :: w in s.submitted ==> FromList(c, s.booted[..n + 1], w) && w.id != s.booted[n].0
  {
    hide WatchesApart;
    var n := Done(s);
    forall w | w in s.submitted ensures FromList(c, s.booted[..n + 1], w) && w.id != s.booted[n].0 {
      var i :| 0 <= i < n && Submits(c, s.booted[..n][i], w);
      assert s.booted[..n + 1][i] == s.booted[i];
    }
  }

  lemma NextIsListed(c: Config, s: World, w: Watch)
    requires Listed(c, s) && |s.restore| > 0 && Submits(c, s.restore[0], w)
    ensures var n := Done(s); n < |s.booted| && FromList(c, s.booted[..n + 1], w) && w.id == s.booted[n].0
  {
    hide WatchesApart, RowsApart;
    assert Submits(c, s.booted[..Done(s) + 1][Done(s)], w);
  }

  /** One row more is done with: submitted, or dropped because the manager is gone. */
  lemma OneMoreDone(c: Config, s: World, s': World)
    requires Listed(c, s) && |s.restore| > 0
    requires s'.booted == s.booted && s'.restore == s.restore[1..] && s'.cancelled == s.cancelled
    requires (s'.submitted == s.submitted && s.cancelled)
             || (exists w :: Submits(c, s.restore[0], w) && s'.submitted == s.submitted + [w])
    ensures Listed(c, s')
  {
    DoneIsListed(c, s);
    if s'.submitted == s.submitted && s.cancelled {
      hide Submits, FromList, RowsApart, WatchesApart;
    } else {
      var w :| Submits(c, s.restore[0], w) && s'.submitted == s.submitted + [w];
      NextIsListed(c, s, w);
      hide Submits, FromList, RowsApart;
    }
  }

  lemma SubmitRecovers(c: Config, s: World)
    requires Sound(c, s) && Recovering(c, s) && |s.restore| > 0
    ensures Recovering(c, SubmitRestored(c, s))
  {
    var (id, o) := s.restore[0];
    assert s.restore[0] in s.restore;
    RowsParse(c, s, id, o);
    hide Sound, WatchOf, Listed;
    var s' := SubmitRestored(c, s);
    assert Submits(c, s.restore[0], WatchOf(c, id, o, RestoreTask).value);
    OneMoreDone(c, s, s');
  }

  lemma BootRecovers(c: Config, s: World, list: seq<(Id, OrderInfo)>)
    requires Recovering(c, s) && Enabled(c, s, Boot(list))
    ensures Recovering(c, Apply(c, s, Boot(list)))
  {
    assert list[0..] == list;
    assert RowsApart(list);
    hide Prepare, ListsPending, RowsApart;
  }

  lemma SendRecovers(c: Config, s: World)
    requires Recovering(c, s) && Enabled(c, s, StateSend)
    ensures Recovering(c, Apply(c, s, StateSend))
  {
    hide Listed;
    ListedKept(c, s, Apply(c, s, StateSend));
  }

  lemma StateStepRecovers(c: Config, s: World, st: Step)
    requires Recovering(c, s) && Enabled(c, s, st)
    requires OfState(st) && !st.Boot? && !st.RestoreSend? && !st.StateSend?
    ensures Recovering(c, Apply(c, s, st))
  {
    hide Listed, ListsPending, WatchOf;
    ListedKept(c, s, Apply(c, s, st));
  }

  lemma TakeRecovers(c: Config, s: World, now: u64)
    requires Recovering(c, s) && Enabled(c, s, StateTake(now))
    ensures Recovering(c, Apply(c, s, StateTake(now)))
  {
    TakeStateMsgFrame(c, s, now);
    hide Listed, TakeStateMsg;
    ListedKept(c, s, Apply(c, s, StateTake(now)));
  }

  lemma ManagerStepRecovers(c: Config, s: World, st: Step)
    requires Recovering(c, s) && Enabled(c, s, st) && OfManager(st)
    ensures Recovering(c, Apply(c, s, st))
  {
    ManagerFrame(c, s, st);
    hide Listed, Route, Drained, CallersInM;
    ListedKept(c, s, Apply(c, s, st));
  }

  lemma OtherStepRecovers(c: Config, s: World, st: Step)
    requires Recovering(c, s) && Enabled(c, s, st) && (OfTrackers(st) || st.PayoutStart?)
    ensures Recovering(c, Apply(c, s, st))
  {
    if OfTrackers(st) {
      TrackerFrame(c, s, st);
    } else {
      PayoutFrame(c, s, st);
    }
    hide Apply, Enabled, Listed;
    ListedKept(c, s, Apply(c, s, st));
  }

  lemma StepRecovers(c: Config, s: World, st: Step)
    requires Sound(c, s) && Recovering(c, s) && Enabled(c, s, st)
    ensures Recovering(c, Apply(c, s, st))
  {
    hide Sound, Recovering;
    if OfTrackers(st) || st.PayoutStart? {
      hide Apply, Enabled;
      OtherStepRecovers(c, s, st);
    } else if OfManager(st) {
      hide Apply, Enabled;
      ManagerStepRecovers(c, s, st);
    } else if st.StateTake? {
      TakeRecovers(c, s, st.now);
    } else if st.StateSend? {
      hide Apply, Enabled;
      SendRecovers(c, s);
    } else if st.RestoreSend? {
      SubmitRecovers(c, s);
    } else if st.Boot? {
      BootRecovers(c, s, st.list);
    } else if st.Crash? {
      StartedRecovers(c, s.d);
    } else {
      hide Apply, Enabled;
      StateStepRecovers(c, s, st);
    }
  }

  lemma StartedRecovers(c: Config, d: Durable)
    ensures Recovering(c, Started(c, d))
  {
  }

  lemma {:induction false} RunsRecover(c: Config, s: World, steps: seq<Step>, s': World)
    requires c.Valid() && Inv(c, s) && Recovering(c, s) && Runs(c, s, steps, s')
    ensures Recovering(c, s')
    decreases |steps|
  {
    if |steps| > 0 {
      StepSound(c, s, steps[0]);
      StepConserves(c, s, steps[0]) by { ConservedOf(c, s); }
      assert Sound(c, s);
      StepRecovers(c, s, steps[0]);
      hide Recovering, Apply, Enabled, DurableOk, VolatileOk, CtlOk, Conserved;
      RunsRecover(c, Apply(c, s, steps[0]), steps[1..], s');
    }
  }

  lemma RecoveringReachable(c: Config, s: World)
    requires c.Valid() && Reachable(c, s)
    ensures Recovering(c, s)
  {
    var steps :| Runs(c, Init(c), steps, s);
    InvInit(c);
    StartedRecovers(c, NothingYet());
    hide Inv, Recovering;
    RunsRecover(c, Init(c), steps, s);
  }

  /** In one life of the daemon the list is read once. */
  lemma BootedKept(c: Config, s: World, st: Step)
    requires Enabled(c, s, st) && !st.Crash? && !s.ctl.Booting?
    ensures Apply(c, s, st).booted == s.booted && !Apply(c, s, st).ctl.Booting?
  {
    if OfTrackers(st) {
      TrackerFrame(c, s, st);
      hide Apply, Enabled;
    } else if OfManager(st) {
      ManagerFrame(c, s, st);
      hide Apply, Enabled;
    } else if st.PayoutStart? {
      PayoutFrame(c, s, st);
      hide Apply, Enabled;
    } else if st.StateTake? {
      TakeStateMsgFrame(c, s, st.now);
      hide TakeStateMsg;
    } else {
      hide ListsPending, WatchOf;
    }
  }

  ghost predicate NoCrash(steps: seq<Step>) {
    forall i :: 0 <= i < |steps| ==> !steps[i].Crash?
  }

  lemma {:induction false} LifeKeepsBooted(c: Config, s: World, steps: seq<Step>, s': World)
    requires !s.ctl.Booting? && Runs(c, s, steps, s') && NoCrash(steps)
    ensures s'.booted == s.booted && !s'.ctl.Booting?
    decreases |steps|
  {
    if |steps| > 0 {
      BootedKept(c, s, steps[0]);
      hide Apply, Enabled;
      LifeKeepsBooted(c, Apply(c, s, steps[0]), steps[1..], s');
    }
  }

  // --- Restart ---

  /** This request was submitted, and no other of the same order. */
  ghost predicate SubmittedOnce(q: seq<Watch>, w: Watch) {
    exists j :: 0 <= j < |q| && q[j] == w && forall k :: 0 <= k < |q| && k != j ==> q[k].id != w.id
  }

  ghost predicate NeverSubmitted(q: seq<Watch>, id: Id) {
    forall k :: 0 <= k < |q| ==> q[k].id != id
  }

  /** The pending order with its record in m is submitted, once and so far; or not yet, and still in the list. */
  ghost predicate Resubmitted(c: Config, m: Orders, id: Id, s: World)
    requires id in m
  {
    match WatchOf(c, id, m[id], RestoreTask)
    case None => false
    case Some(w) => SubmittedOnce(s.submitted, w) || (NeverSubmitted(s.submitted, id) && (id, m[id]) in s.restore)
  }

  /**
   * What the restore task has done with the orders of m: until a shutdown is requested, every
   * pending one is submitted exactly once or still to be; nothing else is ever submitted, and
   * nothing twice.
   */
  ghost predicate Resubmits(c: Config, m: Orders, s: World) {
    && (!s.cancelled ==> forall id :: id in m && m[id].paymentStatus.Pending? ==> Resubmitted(c, m, id, s))
    && (forall w :: w in s.submitted ==>
          w.id in m && m[w.id].paymentStatus.Pending? && WatchOf(c, w.id, m[w.id], RestoreTask) == Some(w))
    && WatchesApart(s.submitted)
  }

  lemma SubmittedIsOnce(q: seq<Watch>, j: nat)
    requires WatchesApart(q) && j < |q|
    ensures SubmittedOnce(q, q[j])
  {
    forall k | 0 <= k < |q| && k != j ensures q[k].id != q[j].id {
      assert if k < j then q[k].id != q[j].id else q[j].id != q[k].id;
    }
  }

  lemma PendingIsResubmitted(c: Config, m: Orders, id: Id, s: World)
    requires Listed(c, s) && ListsPending(m, s.booted) && !s.cancelled
    requires id in m && m[id].paymentStatus.Pending? && WatchOf(c, id, m[id], RestoreTask).Some?
    ensures Resubmitted(c, m, id, s)
  {
    assert (id, m[id]) in s.booted;
    var i :| 0 <= i < |s.booted| && s.booted[i] == (id, m[id]);
    var n := Done(s);
    if i < n {
      assert Submits(c, s.booted[i], s.submitted[i]);
      hide Listed, ListsPending, WatchOf;
      SubmittedIsOnce(s.submitted, i);
    } else {
      assert s.restore[i - n] == s.booted[i];
      forall k | 0 <= k < |s.submitted| ensures s.submitted[k].id != id {
        assert Submits(c, s.booted[k], s.submitted[k]) && s.booted[k].0 != s.booted[i].0;
      }
      hide SubmittedOnce, WatchOf;
      assert NeverSubmitted(s.submitted, id);
    }
  }

  lemma SubmissionsAreListed(c: Config, m: Orders, s: World)
    requires Listed(c, s) && ListsPending(m, s.booted)
    ensures forall w :: w in s.submitted ==>
              w.id in m && m[w.id].paymentStatus.Pending? && WatchOf(c, w.id, m[w.id], RestoreTask) == Some(w)
  {
    forall w | w in s.submitted
      ensures w.id in m && m[w.id].paymentStatus.Pending? && WatchOf(c, w.id, m[w.id], RestoreTask) == Some(w)
    {
      assert FromList(c, s.booted[..Done(s)], w);
      var i :| 0 <= i < Done(s) && Submits(c, s.booted[..Done(s)][i], w);
      var row := s.booted[i];
      assert (row.0, row.1) in s.booted;
      CallerIsKept(c, row.0, row.1, RestoreTask);
    }
  }

  /** The orders a stored table had pending: their records parse. */
  lemma PendingParse(c: Config, s: World, id: Id)
    requires Sound(c, s) && id in s.d.db
    ensures WatchOf(c, id, s.d.db[id], RestoreTask).Some?
  {
    assert (id, AsPending(s.d.db[id])) in s.d.versions;
  }

  /**
   * Restart completeness, for any list of the pending orders: crash at any reachable state, start
   * over the same table, and run on in any way up to the next crash.
   */
  lemma RestartResubmits(c: Config, s: World, list: seq<(Id, OrderInfo)>, steps: seq<Step>, s': World)
    requires c.Valid() && Reachable(c, s) && ListsPending(s.d.db, list)
    requires Runs(c, Apply(c, Apply(c, s, Crash), Boot(list)), steps, s') && NoCrash(steps)
    ensures Resubmits(c, s.d.db, s')
  {
    hide Sound, WatchOf, Apply, Enabled, ListsPending, Runs, Listed, Inv, Resubmits;
    InvReachable(c, s);
    AfterRestart(c, s, list);
    var s2 := Apply(c, Apply(c, s, Crash), Boot(list));
    LifeKeepsBooted(c, s2, steps, s');
    RunsRecover(c, s2, steps, s');
    AllParse(c, s);
    ListedResubmits(c, s.d.db, s');
  }

  lemma AllParse(c: Config, s: World)
    requires Inv(c, s)
    ensures forall id :: id in s.d.db && s.d.db[id].paymentStatus.Pending? ==> WatchOf(c, id, s.d.db[id], RestoreTask).Some?
  {
    assert Sound(c, s);
    hide Inv, Sound, WatchOf;
    forall id | id in s.d.db && s.d.db[id].paymentStatus.Pending? ensures WatchOf(c, id, s.d.db[id], RestoreTask).Some? {
      PendingParse(c, s, id);
    }
  }

  lemma ListedResubmits(c: Config, m: Orders, s: World)
    requires Listed(c, s) && ListsPending(m, s.booted)
    requires forall id :: id in m && m[id].paymentStatus.Pending? ==> WatchOf(c, id, m[id], RestoreTask).Some?
    ensures Resubmits(c, m, s)
  {
    ListedApart(c, s);
    hide WatchOf, ListsPending, Resubmitted, Listed, WatchesApart;
    if !s.cancelled {
      forall id | id in m && m[id].paymentStatus.Pending? ensures Resubmitted(c, m, id, s) {
        PendingIsResubmitted(c, m, id, s);
      }
    }
    SubmissionsAreListed(c, m, s);
  }

  lemma ListedApart(c: Config, s: World)
    requires Listed(c, s)
    ensures WatchesApart(s.submitted)
  {
  }

  lemma AfterRestart(c: Config, s: World, list: seq<(Id, OrderInfo)>)
    requires c.Valid() && Inv(c, s) && ListsPending(s.d.db, list)
    ensures Enabled(c, s, Crash) && Enabled(c, Apply(c, s, Crash), Boot(list))
    ensures var s2 := Apply(c, Apply(c, s, Crash), Boot(list));
            Inv(c, s2) && Recovering(c, s2) && s2.booted == list && !s2.ctl.Booting?
  {
    var s1 := Apply(c, s, Crash);
    ConservedOf(c, s);
    StepSound(c, s, Crash);
    StepConserves(c, s, Crash);
    StartedRecovers(c, s.d);
    BootRecovers(c, s1, list);
    StepSound(c, s1, Boot(list));
    StepConserves(c, s1, Boot(list));
    hide Recovering, DurableOk, VolatileOk, CtlOk, Conserved, ListsPending;
  }

  /** The restarted server's own listing is such a list, whatever order the surviving table yields its rows in. */
  method Restart(c: Config, ghost s: World, db: Store.Database) returns (list: seq<(Id, OrderInfo)>)
    requires c.Valid() && Reachable(c, s) && Store.Represents(db.format, db.orders, s.d.db)
    ensures Enabled(c, Apply(c, s, Crash), Boot(list))
    ensures forall steps, s' :: Runs(c, Apply(c, Apply(c, s, Crash), Boot(list)), steps, s') && NoCrash(steps) ==>
              Resubmits(c, s.d.db, s')
  {
    hide Reachable, Runs, NoCrash, Resubmits, Store.Represents, ListsPending;
    list := db.ActiveOrderList();
    forall steps, s' | Runs(c, Apply(c, Apply(c, s, Crash), Boot(list)), steps, s') && NoCrash(steps)
      ensures Resubmits(c, s.d.db, s')
    {
      RestartResubmits(c, s, list, steps, s');
    }
  }

  /**
   * In every reachable state, until a shutdown is requested: the rows of the list read at the start
   * are submitted one by one in order, and what is not submitted is still in the list.
   */
  lemma EveryPendingResubmitted(c: Config, s: World)
    requires c.Valid() && Reachable(c, s) && !s.cancelled
    ensures |s.booted| == |s.submitted| + |s.restore| && s.restore == s.booted[|s.submitted|..]
    ensures forall i :: 0 <= i < |s.submitted| ==>
              WatchOf(c, s.booted[i].0, s.booted[i].1, RestoreTask) == Some(s.submitted[i])
  {
    RecoveringReachable(c, s);
    hide Reachable, WatchOf;
  }

  // --- Endpoint switches ---

  /** This tracker fetched a balance that covers the invoice. */
  ghost predicate SeenCovered(d: Durable, t: nat, i: Invoice) {
    exists e :: e in d.evidence && e.chain == t && e.invoice == i && e.balance >= i.amount
  }

  /** A tracker's queue without the notices of new blocks. */
  function Requests(q: seq<TrackerMsg>): seq<TrackerMsg> {
    if |q| == 0 then [] else if q[0].TNewBlock? then Requests(q[1..]) else [q[0]] + Requests(q[1..])
  }

  lemma {:induction false} RequestsAppend(q: seq<TrackerMsg>, r: seq<TrackerMsg>)
    ensures Requests(q + r) == Requests(q) + Requests(r)
  {
    hide ValidUtf8;
    if |q| == 0 {
      assert q + r == r;
    } else {
      RequestsAppend(q[1..], r);
      assert (q + r)[0] == q[0] && (q + r)[1..] == q[1..] + r;
      assert [q[0]] + (Requests(q[1..]) + Requests(r)) == ([q[0]] + Requests(q[1..])) + Requests(r);
    }
  }

  lemma RequestsLonger(q: seq<TrackerMsg>, q': seq<TrackerMsg>)
    requires q <= q'
    ensures Requests(q) <= Requests(q')
  {
    RequestsAppend(q, q'[|q|..]);
    assert q + q'[|q|..] == q';
  }

  /** No request queued at the tracker is lost or overtaken, and nothing watched is but what it found covered. */
  ghost predicate Kept(t: nat, before: TrackerState, s: World) {
    && t < |s.trackers|
    && Requests(before.queue) <= Requests(s.trackers[t].queue)
    && (forall id :: id in s.trackers[t].watched ==> id in before.watched && s.trackers[t].watched[id] == before.watched[id])
    && (forall id :: id in before.watched ==> id in s.trackers[t].watched || SeenCovered(s.d, t, before.watched[id]))
  }

  /** On the way from one endpoint to serving at the next: what is to be removed was found covered. */
  ghost predicate Switching(d: Durable, t: nat, x: TrackerState) {
    match x.phase
    case Checking(_, block, _, _, _, removals) =>
      !block && forall id :: id in removals ==> id in x.watched && SeenCovered(d, t, x.watched[id])
    case Ended => false
    case _ => true
  }

  /** The tracker is about to take the notice of a block, which will end the connection. */
  predicate BreaksOff(s: World, st: Step, t: nat) {
    && st.TrackerTake? && st.outcome.Reconnect?
    && t < |s.trackers| && |s.trackers[t].queue| > 0 && s.trackers[t].queue[0].TNewBlock?
  }

  /** The tracker ends, or takes a message and stays connected. */
  predicate LeavesTracker(s: World, st: Step, t: nat) {
    st.Crash? || (st.TrackerTake? && st.t == t && !BreaksOff(s, st, t)) || (st.TrackerQuit? && st.t == t)
  }

  /** No step of this run does. */
  ghost predicate OnlySwitches(c: Config, s: World, steps: seq<Step>, t: nat)
    decreases |steps|
  {
    |steps| > 0 ==>
      Enabled(c, s, steps[0]) && !LeavesTracker(s, steps[0], t) && OnlySwitches(c, Apply(c, s, steps[0]), steps[1..], t)
  }

  lemma SeenGrows(d: Durable, d': Durable, t: nat, i: Invoice)
    requires SeenCovered(d, t, i) && d.evidence <= d'.evidence
    ensures SeenCovered(d', t, i)
  {
  }

  lemma SwitchingGrows(s: World, s': World, t: nat, before: TrackerState)
    requires Kept(t, before, s) && Switching(s.d, t, s.trackers[t])
    requires s.d.evidence <= s'.d.evidence && t < |s'.trackers|
    requires s'.trackers[t] == s.trackers[t].(queue := s'.trackers[t].queue) && s.trackers[t].queue <= s'.trackers[t].queue
    ensures Kept(t, before, s') && Switching(s'.d, t, s'.trackers[t])
  {
    forall i | SeenCovered(s.d, t, i) ensures SeenCovered(s'.d, t, i) {
      SeenGrows(s.d, s'.d, t, i);
    }
    RequestsLonger(s.trackers[t].queue, s'.trackers[t].queue);
    hide SeenCovered, Requests;
  }

  lemma SwitchVisit(s: World, t: nat, id: Id, v: Visit, before: TrackerState)
    requires Kept(t, before, s) && Switching(s.d, t, s.trackers[t]) && v.transfer && !v.due
    requires s.trackers[t].phase.Checking? && id in s.trackers[t].watched
    ensures var s' := VisitInvoice(s, t, id, v); Kept(t, before, s') && Switching(s'.d, t, s'.trackers[t])
  {
    var s' := VisitInvoice(s, t, id, v);
    var i := s.trackers[t].watched[id];
    forall j | SeenCovered(s.d, t, j) ensures SeenCovered(s'.d, t, j) {
      SeenGrows(s.d, s'.d, t, j);
    }
    if Dropped(i, v) {
      var p := s.trackers[t].phase;
      assert Evidence(t, p.at, AssetOf(p.assets, i.currency), i, v.atTransfer.value) in s'.d.evidence;
      assert SeenCovered(s'.d, t, i);
    }
    hide SeenCovered;
  }

  /** A step that leaves requests, watch map and evidence alone, or only enqueues. */
  lemma SwitchKeeps(s: World, s': World, t: nat, before: TrackerState, queue: seq<TrackerMsg>, p: Phase)
    requires Kept(t, before, s) && Requests(s.trackers[t].queue) <= Requests(queue)
    requires s'.d == s.d && t < |s'.trackers|
    requires s'.trackers[t] == s.trackers[t].(queue := queue, phase := p)
    requires Switching(s.d, t, s'.trackers[t])
    ensures Kept(t, before, s') && Switching(s'.d, t, s'.trackers[t])
  {
    hide SeenCovered, Switching, Requests;
  }

  lemma SwitchSettle(s: World, s': World, t: nat, before: TrackerState)
    requires Kept(t, before, s) && Switching(s.d, t, s.trackers[t]) && s.trackers[t].phase.Checking?
    requires s'.d == s.d && t < |s'.trackers|
    requires var x := s.trackers[t];
             s'.trackers[t] == x.(watched := x.watched - x.phase.removals, phase := Serving(x.phase.assets))
    ensures Kept(t, before, s') && Switching(s'.d, t, s'.trackers[t])
  {
    hide SeenCovered;
  }

  lemma SwitchReport(s: World, t: nat, before: TrackerState)
    requires Kept(t, before, s) && Switching(s.d, t, s.trackers[t])
    requires t < |s.trackers| && s.trackers[t].phase.Checking? && s.trackers[t].phase.reports != []
    ensures var s' := SendReport(s, t); Kept(t, before, s') && Switching(s'.d, t, s'.trackers[t])
  {
    hide Kept, SeenCovered;
    var s' := SendReport(s, t);
    SwitchKeeps(s, s', t, before, s'.trackers[t].queue, s'.trackers[t].phase);
  }

  /** The tracker keeps what it watches, and its queue or more, in a phase in which it removes nothing. */
  ghost predicate KeepsOn(s: World, s': World, t: nat) {
    && t < |s.trackers| && t < |s'.trackers| && s'.d == s.d
    && s'.trackers[t].watched == s.trackers[t].watched && s.trackers[t].queue <= s'.trackers[t].queue
    && var p := s'.trackers[t].phase;
       p == s.trackers[t].phase || p.Connecting? || p.Announcing? || (p.Checking? && !p.block && p.removals == {})
  }

  lemma AnnounceKeeps(c: Config, s: World, t: nat, at: nat)
    requires Enabled(c, s, TrackerAnnounce(t, at))
    ensures KeepsOn(s, Apply(c, s, TrackerAnnounce(t, at)), t)
  {
  }

  lemma ConnectionKeeps(c: Config, s: World, st: Step)
    requires Enabled(c, s, st) && (st.BlockArrives? || st.TrackerConnect? || st.TrackerTimeout?)
    ensures KeepsOn(s, Apply(c, s, st), st.t)
  {
    hide Prepare;
  }

  lemma SwitchPhase(c: Config, s: World, st: Step, before: TrackerState)
    requires st.BlockArrives? || st.TrackerConnect? || st.TrackerTimeout? || st.TrackerAnnounce?
    requires Kept(st.t, before, s) && Switching(s.d, st.t, s.trackers[st.t]) && Enabled(c, s, st)
    ensures var s' := Apply(c, s, st); Kept(st.t, before, s') && Switching(s'.d, st.t, s'.trackers[st.t])
  {
    hide Apply, Enabled, SeenCovered, Kept, Requests;
    if st.TrackerAnnounce? {
      AnnounceKeeps(c, s, st.t, st.at);
    } else {
      ConnectionKeeps(c, s, st);
    }
    var s' := Apply(c, s, st);
    RequestsLonger(s.trackers[st.t].queue, s'.trackers[st.t].queue);
    SwitchKeeps(s, s', st.t, before, s'.trackers[st.t].queue, s'.trackers[st.t].phase);
  }

  lemma SwitchBreaksOff(c: Config, s: World, st: Step, before: TrackerState)
    requires st.TrackerTake? && BreaksOff(s, st, st.t)
    requires Kept(st.t, before, s) && Switching(s.d, st.t, s.trackers[st.t]) && Enabled(c, s, st)
    ensures var s' := Apply(c, s, st); Kept(st.t, before, s') && Switching(s'.d, st.t, s'.trackers[st.t])
  {
    hide SeenCovered, Kept;
    var s' := Apply(c, s, st);
    assert Requests(s'.trackers[st.t].queue) == Requests(s.trackers[st.t].queue);
    hide Requests;
    SwitchKeeps(s, s', st.t, before, s'.trackers[st.t].queue, s'.trackers[st.t].phase);
  }

  lemma SwitchOwnStep(c: Config, s: World, st: Step, before: TrackerState)
    requires OfTrackers(st) && Enabled(c, s, st)
    requires Kept(st.t, before, s) && Switching(s.d, st.t, s.trackers[st.t]) && !LeavesTracker(s, st, st.t)
    ensures var s' := Apply(c, s, st); Kept(st.t, before, s') && Switching(s'.d, st.t, s'.trackers[st.t])
  {
    if st.TrackerVisit? || st.TrackerReport? || st.TrackerSettle? {
      hide Kept;
      SwitchRound(c, s, st, before);
    } else if st.TrackerTake? {
      hide Apply, Enabled, Kept, Switching;
      SwitchBreaksOff(c, s, st, before);
    } else {
      hide Apply, Enabled, Kept, Switching;
      SwitchPhase(c, s, st, before);
    }
  }

  lemma SwitchRound(c: Config, s: World, st: Step, before: TrackerState)
    requires st.TrackerVisit? || st.TrackerReport? || st.TrackerSettle?
    requires Kept(st.t, before, s) && Switching(s.d, st.t, s.trackers[st.t]) && Enabled(c, s, st)
    ensures var s' := Apply(c, s, st); Kept(st.t, before, s') && Switching(s'.d, st.t, s'.trackers[st.t])
  {
    hide SeenCovered, VisitInvoice, Kept, Fetched, SendReport;
    match st {
      case TrackerVisit(t, id, _, v) => SwitchVisit(s, t, id, v, before);
      case TrackerReport(t) => SwitchReport(s, t, before);
      case TrackerSettle(t) => SwitchSettle(s, Apply(c, s, st), t, before);
    }
  }

  lemma SwitchStep(c: Config, s: World, st: Step, t: nat, before: TrackerState)
    requires Kept(t, before, s) && Switching(s.d, t, s.trackers[t]) && Shaped(c, s)
    requires Enabled(c, s, st) && !LeavesTracker(s, st, t)
    ensures var s' := Apply(c, s, st); Kept(t, before, s') && Switching(s'.d, t, s'.trackers[t])
  {
    if OfTrackers(st) && st.t == t {
      hide Kept, Switching, Apply, Enabled, Shaped;
      SwitchOwnStep(c, s, st, before);
    } else {
      OthersStep(c, s, st, t);
      hide Kept, Switching, Apply, Enabled, Shaped;
      SwitchingGrows(s, Apply(c, s, st), t, before);
    }
  }

  /** No step of another actor takes anything from a tracker; it may add to its queue. */
  lemma OthersStep(c: Config, s: World, st: Step, t: nat)
    requires Shaped(c, s) && t < |s.trackers| && Enabled(c, s, st) && !st.Crash? && !(OfTrackers(st) && st.t == t)
    ensures var s' := Apply(c, s, st);
            && |s'.trackers| == |s.trackers| && s.d.evidence <= s'.d.evidence
            && s.trackers[t].queue <= s'.trackers[t].queue
            && s'.trackers[t] == s.trackers[t].(queue := s'.trackers[t].queue)
  {
    if OfTrackers(st) {
      TrackerFrame(c, s, st);
      hide Apply, Enabled;
    } else if st.StateTake? {
      TakeStateMsgFrame(c, s, st.now);
      hide TakeStateMsg;
    } else if OfManager(st) {
      ManagerFrame(c, s, st);
      hide Apply, Enabled;
    } else if st.PayoutStart? {
      PayoutFrame(c, s, st);
      hide Apply, Enabled;
    } else {
      StateFrame(c, s, st);
      hide Apply, Enabled;
    }
  }

  lemma {:induction false} RunsSwitch(c: Config, s: World, steps: seq<Step>, s': World, t: nat, before: TrackerState)
    requires Kept(t, before, s) && Switching(s.d, t, s.trackers[t]) && Shaped(c, s)
    requires Runs(c, s, steps, s') && OnlySwitches(c, s, steps, t)
    ensures Kept(t, before, s') && Switching(s'.d, t, s'.trackers[t])
    decreases |steps|
  {
    if |steps| > 0 {
      SwitchStep(c, s, steps[0], t, before);
      StepShaped(c, s, steps[0]);
      hide Kept, Switching, Apply, Enabled, Shaped;
      RunsSwitch(c, Apply(c, s, steps[0]), steps[1..], s', t, before);
    }
  }

  /**
   * However often a tracker changes endpoints, whether for a timeout, a block that cannot be read or
   * a changed runtime, and whatever else happens until it ends or takes another message: its queued
   * requests are still there, in order, only notices of blocks are gone; and every watched invoice is
   * still watched unchanged, or a balance that covers it was fetched.
   */
  lemma {:induction false} SwitchLosesNothing(c: Config, s: World, steps: seq<Step>, s': World, t: nat)
    requires Reachable(c, s) && t < |s.trackers| && !s.trackers[t].phase.Ended? && !s.trackers[t].phase.Checking?
    requires Runs(c, s, steps, s') && OnlySwitches(c, s, steps, t)
    ensures t < |s'.trackers| && Requests(s.trackers[t].queue) <= Requests(s'.trackers[t].queue)
    ensures forall id :: id in s'.trackers[t].watched ==>
              id in s.trackers[t].watched && s'.trackers[t].watched[id] == s.trackers[t].watched[id]
    ensures forall id :: id in s.trackers[t].watched && id !in s'.trackers[t].watched ==>
              SeenCovered(s'.d, t, s.trackers[t].watched[id])
  {
    ShapedReachable(c, s);
    hide Shaped, Runs, Reachable, SeenCovered, OnlySwitches, Requests;
    RunsSwitch(c, s, steps, s', t, s.trackers[t]);
  }
}
