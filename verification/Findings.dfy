// Runs that reach what the code does not prevent: the deadlock of State handler and tracker, and a
// payout lost without a crash. For every queue capacity, and every order of a currency whose chain connects.
module Findings {
  import opened Definitions
  import opened Chains
  import opened Watching
  import opened Protocol
  import opened Replies
  import opened Safety
  import opened Deadlock
  import opened Losses
  import opened Scenarios

  // --- The payout request behind an unfinished round ---

  lemma Calls(c: Config, s: World, w: Watch)
    requires c.capacity > 0 && s.ctl == Sending(MReap(w)) && s.mctl.Ready? && s.managerQ == []
    ensures Enabled(c, s, StateSend)
    ensures Apply(c, s, StateSend)
         == s.(d := s.d.(issued := s.d.issued + [w]), managerQ := [MReap(w)], ctl := AwaitingReply)
  {
    assert [] + [MReap(w)] == [MReap(w)];
  }

  /** The request on its way to this tracker. */
  function Requested(s: World, t: nat, w: Watch): World {
    s.(d := s.d.(issued := s.d.issued + [w]), ctl := AwaitingReply, mctl := Forwarding(t, TReap(w)))
  }

  lemma ReapIsTaken(c: Config, s: World, t: nat, w: Watch)
    requires c.capacity > 0 && s.ctl == Sending(MReap(w)) && s.mctl.Ready? && s.managerQ == []
    requires Route(c.chains, w.currency) == Some(t)
    ensures CanReach(c, s, Requested(s, t, w))
  {
    hide Route, CanReach, Apply, Enabled;
    Here(c, s);
    Calls(c, s, w);
    var s1 := s.(d := s.d.(issued := s.d.issued + [w]), managerQ := [MReap(w)], ctl := AwaitingReply);
    To(c, s, s, StateSend, s1);
    Picks(c, s1, MReap(w), t);
    To(c, s, s1, ManagerTake, Requested(s, t, w));
  }

  // --- The deadlock is reachable ---

  function Inquiries(n: nat): (q: seq<StateMsg>)
    ensures |q| == n
  {
    seq(n, _ => Inquiry)
  }

  lemma ClientAsks(c: Config, s: World, n: nat)
    requires !s.ctl.Stopped? && s.stateQ == Inquiries(n) && n < c.capacity
    ensures Enabled(c, s, ClientAsk) && Apply(c, s, ClientAsk) == s.(stateQ := Inquiries(n + 1))
  {
    assert Inquiries(n) + [Inquiry] == Inquiries(n + 1);
  }

  lemma {:induction false} ClientsFillTheQueue(c: Config, s: World, n: nat)
    requires !s.ctl.Stopped? && s.stateQ == [] && n <= c.capacity
    ensures CanReach(c, s, s.(stateQ := Inquiries(n)))
  {
    hide CanReach, Apply, Enabled;
    if n == 0 {
      Here(c, s);
    } else {
      ClientsFillTheQueue(c, s, n - 1);
      ClientAsks(c, s.(stateQ := Inquiries(n - 1)), n - 1);
      To(c, s, s.(stateQ := Inquiries(n - 1)), ClientAsk, s.(stateQ := Inquiries(n)));
    }
  }

  lemma FromPaidToDeadlock(c: Config, s: World, d: Durable, t: nat, assets: Assets, i: Invoice, w: Watch)
    requires c.Valid() && JustPaid(s, d, t, assets, i, w) && w.caller.StateTask? && Route(c.chains, w.currency) == Some(t)
    ensures exists s' :: CanReach(c, s, s') && Deadlocked(c, s', t)
  {
    hide CanReach, Route, Apply, Enabled, Acceptable, Deadlocked;
    ReapIsTaken(c, s, t, w);
    var s1 := Requested(s, t, w);
    Forwards(c, s1, t, TReap(w));
    var s2 := With(s1.(mctl := Ready), t, s.trackers[t].(queue := [TReap(w)]));
    To(c, s, s1, ManagerForward, s2);
    ClientsFillTheQueue(c, s2, c.capacity);
    var s3 := s2.(stateQ := Inquiries(c.capacity));
    Onward(c, s, s2, s3);
    CorneredIsDeadlocked(c, s3, t, w);
  }

  lemma CorneredIsDeadlocked(c: Config, s: World, t: nat, w: Watch)
    requires t < |s.trackers| && s.trackers[t].queue == [TReap(w)] && w.caller.StateTask? && s.ctl.AwaitingReply?
    requires s.trackers[t].phase.Checking? && s.trackers[t].phase.reports != [] && |s.stateQ| >= c.capacity
    ensures Deadlocked(c, s, t)
  {
    HeldAppend([], TReap(w), StateTask);
    assert [] + [TReap(w)] == [TReap(w)];
  }

  /**
   * One order, asked for before a crash and watched again by the restore task after it, one block that
   * covers it, and as many client requests as the State queue holds lead to the deadlock, which
   * Deadlock.DeadlockIsFinal shows to be final.
   */
  lemma DeadlockIsReachable(c: Config, reports: seq<NodeReport>, q: OrderQuery, t: nat) returns (b: Config, s: World)
    requires c.Valid() && |c.chains| == |reports| && q.currency in Currencies(c.chains, reports, |c.chains|)
    requires Offered(c.chains, reports, t, q.currency)
    ensures b == c.(block := b.block) && b.Valid() && Reachable(b, s) && Deadlocked(b, s, t)
  {
    hide CanReach, Currencies, Route, Prepare, Acceptable, HoldsExactly, Deadlocked, Reachable;
    var amount := TermsOf(c, Currencies(c.chains, reports, |c.chains|), q).1;
    b := c.(block := Flat(amount));
    FlatHolds(c, amount);
    var s1, i, w := PaidRun(b, reports, q.order, [q], 0, t);
    FromPaidToDeadlock(b, s1, s1.d, t, Learned(b.chains, reports, t).value, i, w);
    s :| CanReach(b, s1, s) && Deadlocked(b, s, t);
    Onward(b, Init(b), s1, s);
    CanReachIsReachable(b, s);
  }

  // --- A payout is lost without a crash ---

  lemma TakesDeadly(c: Config, s: World, t: nat)
    requires t < |s.trackers| && s.trackers[t].phase.Serving? && s.trackers[t].queue == [TNewBlock]
    ensures Enabled(c, s, TrackerTake(t, Die))
    ensures Apply(c, s, TrackerTake(t, Die)) == With(s, t, s.trackers[t].(phase := Ended, queue := []))
  {
    var x := s.trackers[t];
    assert x.queue[1..] == [];
    assert CallersIn([]) == {};
    WithTwice(s, t, x.(queue := []), x.(phase := Ended, queue := []));
  }

  /** While the payout request is at the manager, its tracker fails to get the runtime version for a block, and ends. */
  lemma FromPaidToLoss(c: Config, s: World, d: Durable, t: nat, assets: Assets, i: Invoice, w: Watch) returns (s': World)
    requires c.Valid() && JustPaid(s, d, t, assets, i, w) && w.caller.StateTask? && Route(c.chains, w.currency) == Some(t)
    ensures CanReach(c, s, s') && Enabled(c, s', ManagerForward) && Drops(s', ManagerForward, w.id)
    ensures s'.d.db == d.db
  {
    hide CanReach, Route, Apply, Enabled, Acceptable;
    ReapIsTaken(c, s, t, w);
    var s1 := Requested(s, t, w);
    ReportIsSent(c, s1, t);
    var x2 := Round(assets, i, {}, [], {i.id});
    assert [i.id][1..] == [];
    var s2 := s1.(stateQ := s1.stateQ + [OrderPaid(i.id)]);
    To(c, s, s1, TrackerReport(t), With(s2, t, x2));
    SettledEmpty(c, With(s2, t, x2), t);
    var x3 := TrackerState(Serving(assets), x2.watched - {i.id}, []);
    WithTwice(s2, t, x2, x3);
    To(c, s, With(s2, t, x2), TrackerSettle(t), With(s2, t, x3));
    BlockComes(c, With(s2, t, x3), t);
    var x4 := x3.(queue := [TNewBlock]);
    assert [] + [TNewBlock] == [TNewBlock];
    WithTwice(s2, t, x3, x4);
    To(c, s, With(s2, t, x3), BlockArrives(t), With(s2, t, x4));
    TakesDeadly(c, With(s2, t, x4), t);
    var x5 := x4.(phase := Ended, queue := []);
    WithTwice(s2, t, x4, x5);
    s' := With(s2, t, x5);
    To(c, s, With(s2, t, x4), TrackerTake(t, Die), s');
    ForwardsToEnded(c, s', t);
  }

  lemma ForwardsToEnded(c: Config, s: World, t: nat)
    requires t < |s.trackers| && s.trackers[t].phase.Ended? && s.mctl.Forwarding? && s.mctl.t == t
    ensures Enabled(c, s, ManagerForward)
  {
  }

  /** A run that ends without a crash in the loss of a payout: the manager forwards it to an ended tracker. */
  lemma PayoutLostWithoutCrash(c: Config, reports: seq<NodeReport>, q: OrderQuery, t: nat) returns (b: Config, s: World)
    requires c.Valid() && |c.chains| == |reports| && q.currency in Currencies(c.chains, reports, |c.chains|)
    requires Offered(c.chains, reports, t, q.currency)
    ensures b == c.(block := b.block) && b.Valid() && Reachable(b, s) && Enabled(b, s, ManagerForward)
    ensures !Lost(s, q.order) && Lost(Apply(b, s, ManagerForward), q.order)
  {
    hide CanReach, Currencies, Route, Prepare, Acceptable, HoldsExactly, Reachable, Drops, Underway, Attempted, Healthy, Inv,
      Apply, Enabled;
    var amount := TermsOf(c, Currencies(c.chains, reports, |c.chains|), q).1;
    b := c.(block := Flat(amount));
    FlatHolds(c, amount);
    var s1, i, w := PaidRun(b, reports, q.order, [q], 0, t);
    s := FromPaidToLoss(b, s1, s1.d, t, Learned(b.chains, reports, t).value, i, w);
    Onward(b, Init(b), s1, s);
    CanReachIsReachable(b, s);
    HealthyReachable(b, s);
    HealthyInv(b, s);
    DroppedIsUnderway(s, ManagerForward, q.order);
    UnderwayIsPaid(b, s, q.order);
    LosesIff(b, s, ManagerForward, q.order);
  }
}
