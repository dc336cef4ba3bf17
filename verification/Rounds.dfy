// One round of a tracker over its watch map in the state machine: where it starts, that it visits every
// invoice watched then before it settles, and that it lets go only what its own visit decided.
module Rounds {
  import opened Definitions
  import opened Chains
  import opened Watching
  import opened Protocol
  import opened Scenarios

  ghost predicate InRound(s: World, t: nat) {
    t < |s.trackers| && s.trackers[t].phase.Checking?
  }

  /** The round still has to visit this invoice. */
  ghost predicate ToVisit(s: World, t: nat, id: Id) {
    InRound(s, t) && id in s.trackers[t].phase.todo
  }

  ghost predicate ToRemove(s: World, t: nat, id: Id) {
    InRound(s, t) && id in s.trackers[t].phase.removals
  }

  /** Nothing visited, nothing reported, nothing removed yet. */
  ghost predicate RoundStarts(s: World, t: nat, assets: Assets, block: bool, at: nat) {
    && InRound(s, t)
    && s.trackers[t].phase == Checking(assets, block, at, s.trackers[t].watched.Keys, [], {})
  }

  /** A new connection and a readable block each start a round over the whole watch map, about the block they name. */
  lemma RoundsStart(c: Config, s: World, st: Step)
    requires Enabled(c, s, st)
    requires st.TrackerAnnounce? || (st.TrackerTake? && s.trackers[st.t].queue[0].TNewBlock? && st.outcome.Process?)
    ensures var s' := Apply(c, s, st);
            && RoundStarts(s', st.t, s.trackers[st.t].phase.assets, st.TrackerTake?,
                           if st.TrackerTake? then st.outcome.at else st.at)
            && s'.trackers[st.t].watched == s.trackers[st.t].watched
            && (st.TrackerTake? ==> c.block(st.t, st.outcome.at).eventsReadable)
  {
  }

  /** The tracker after a new connection: nothing queued or watched is gone, and a round over the watch map has started. */
  function CaughtUp(s: World, t: nat, assets: Assets, at: nat): World
    requires t < |s.trackers|
  {
    With(s.(stateQ := s.stateQ + [ConnectChain(assets)]), t,
         s.trackers[t].(phase := Checking(assets, false, at, s.trackers[t].watched.Keys, [], {})))
  }

  predicate BlockIsNext(s: World, t: nat)
    requires t < |s.trackers|
  {
    |s.trackers[t].queue| > 0 && s.trackers[t].queue[0].TNewBlock?
  }

  /**
   * A tracker that hears nothing from its node, or cannot read what it hears, connects to the next one:
   * if that one passes, its assets are announced and the whole watch map is checked again.
   */
  lemma SilentNodeIsReplaced(c: Config, s: World, t: nat, report: NodeReport, at: nat, leave: Step)
    requires t < |c.chains| && t < |s.trackers| && s.trackers[t].phase.Serving? && !s.ctl.Stopped? && |s.stateQ| < c.capacity
    requires Prepare(c.chains[t], report).Ok?
    requires leave == TrackerTimeout(t) || (leave == TrackerTake(t, Reconnect) && BlockIsNext(s, t))
    ensures var queue := if leave.TrackerTake? then s.trackers[t].queue[1..] else s.trackers[t].queue;
            Runs(c, s, [leave, TrackerConnect(t, report), TrackerAnnounce(t, at)],
                 CaughtUp(With(s, t, s.trackers[t].(queue := queue)), t, Prepare(c.chains[t], report).value, at))
  {
    var x := s.trackers[t];
    var queue := if leave.TrackerTake? then x.queue[1..] else x.queue;
    var assets := Prepare(c.chains[t], report).value;
    Leaves(c, s, t, leave);
    var s1 := With(s, t, x.(phase := Connecting, queue := queue));
    Connected(c, s1, t, report);
    var x2 := x.(phase := Announcing(assets), queue := queue);
    WithTwice(s, t, x.(phase := Connecting, queue := queue), x2);
    var s2 := With(s, t, x2);
    AnnouncedAt(c, s2, t, at);
    hide Prepare, Apply, Enabled;
    var x3 := x.(phase := Checking(assets, false, at, x.watched.Keys, [], {}), queue := queue);
    var told := s.(stateQ := s.stateQ + [ConnectChain(assets)]);
    WithTwice(told, t, x2, x3);
    WithTwice(told, t, x.(queue := queue), x3);
    var s3 := With(told, t, x3);
    RunsOfThree(c, s, leave, s1, TrackerConnect(t, report), s2, TrackerAnnounce(t, at), s3);
  }

  lemma Leaves(c: Config, s: World, t: nat, leave: Step)
    requires t < |s.trackers| && s.trackers[t].phase.Serving?
    requires leave == TrackerTimeout(t) || (leave == TrackerTake(t, Reconnect) && BlockIsNext(s, t))
    ensures var x := s.trackers[t];
            && Enabled(c, s, leave)
            && Apply(c, s, leave) == With(s, t, x.(phase := Connecting, queue := if leave.TrackerTake? then x.queue[1..] else x.queue))
  {
    var x := s.trackers[t];
    if leave.TrackerTake? {
      WithTwice(s, t, x.(queue := x.queue[1..]), x.(phase := Connecting, queue := x.queue[1..]));
    }
  }

  lemma AnnouncedAt(c: Config, s: World, t: nat, at: nat)
    requires t < |s.trackers| && s.trackers[t].phase.Announcing? && !s.ctl.Stopped? && |s.stateQ| < c.capacity
    ensures Enabled(c, s, TrackerAnnounce(t, at))
    ensures var x := s.trackers[t];
            && Apply(c, s, TrackerAnnounce(t, at))
               == With(s.(stateQ := s.stateQ + [ConnectChain(x.phase.assets)]), t,
                       x.(phase := Checking(x.phase.assets, false, at, x.watched.Keys, [], {})))
  {
  }

  lemma RunsOfThree(c: Config, s: World, a: Step, s1: World, b: Step, s2: World, d: Step, s3: World)
    requires Enabled(c, s, a) && Apply(c, s, a) == s1
    requires Enabled(c, s1, b) && Apply(c, s1, b) == s2
    requires Enabled(c, s2, d) && Apply(c, s2, d) == s3
    ensures Runs(c, s, [a, b, d], s3)
  {
    hide Apply, Enabled;
    assert [a, b, d][1..] == [b, d] && [b, d][1..] == [d] && [d][1..] == [];
    assert Runs(c, s3, [], s3);
    assert Runs(c, s2, [d], s3);
    assert Runs(c, s1, [b, d], s3);
  }

  // --- Steps of others ---

  /** A step of another actor leaves the tracker's phase and watch map alone. */
  lemma OthersKeepRound(c: Config, s: World, st: Step, t: nat)
    requires Enabled(c, s, st) && !st.Crash? && (OfTrackers(st) ==> st.t != t) && t < |s.trackers|
    ensures var s' := Apply(c, s, st);
            && t < |s'.trackers| && s'.trackers[t].phase == s.trackers[t].phase && s'.trackers[t].watched == s.trackers[t].watched
  {
    if OfTrackers(st) {
      TrackerFrame(c, s, st);
      hide Apply, Enabled;
    } else if OfManager(st) {
      ManagerFrame(c, s, st);
      hide Apply, Enabled;
    } else if OfState(st) {
      StateFrame(c, s, st);
      hide Apply, Enabled;
    } else if st.PayoutStart? {
      PayoutFrame(c, s, st);
      hide Apply, Enabled;
    } else {
      TakeStateMsgFrame(c, s, st.now);
      hide TakeStateMsg;
    }
  }

  // --- Its own steps ---

  lemma ReportingKeeps(c: Config, s: World, t: nat)
    requires Enabled(c, s, TrackerReport(t))
    ensures var s' := Apply(c, s, TrackerReport(t));
            && InRound(s', t) && InRound(s, t)
            && s'.trackers[t].phase == s.trackers[t].phase.(reports := s'.trackers[t].phase.reports)
            && s'.trackers[t].watched == s.trackers[t].watched
  {
  }

  /** A visit takes its own invoice from the list, and marks it for removal if it decides so. */
  lemma VisitingChanges(c: Config, s: World, t: nat, id: Id, now: u64, v: Visit)
    requires Enabled(c, s, TrackerVisit(t, id, now, v))
    ensures var s', p := Apply(c, s, TrackerVisit(t, id, now, v)), s.trackers[t].phase;
            && InRound(s', t) && InRound(s, t) && id in s.trackers[t].watched
            && s'.trackers[t].phase.todo == p.todo - {id}
            && s'.trackers[t].phase.removals == (if Dropped(s.trackers[t].watched[id], v) then p.removals + {id} else p.removals)
            && s'.trackers[t].watched == s.trackers[t].watched
  {
    hide EvidenceOf, Reports, Dropped, VisitAllowed, Repeat;
  }

  lemma BlockArriving(c: Config, s: World, t: nat)
    requires Enabled(c, s, BlockArrives(t))
    ensures var s' := Apply(c, s, BlockArrives(t));
            t < |s.trackers| && t < |s'.trackers| && s'.trackers[t] == s.trackers[t].(queue := s.trackers[t].queue + [TNewBlock])
  {
  }

  /** During a round a tracker visits, reports and settles; only blocks arrive. */
  lemma OnlyRoundSteps(c: Config, s: World, st: Step)
    requires Enabled(c, s, st) && OfTrackers(st) && InRound(s, st.t)
    ensures st.TrackerVisit? || st.TrackerReport? || st.TrackerSettle? || st.BlockArrives?
  {
    hide VisitAllowed, Prepare;
  }

  /** The round settles with nothing left to visit or report, and lets go exactly of what was marked. */
  lemma Settles(c: Config, s: World, t: nat)
    requires Enabled(c, s, TrackerSettle(t))
    ensures var s', x := Apply(c, s, TrackerSettle(t)), s.trackers[t];
            && InRound(s, t) && x.phase.todo == {} && x.phase.reports == []
            && t < |s'.trackers|
            && s'.trackers[t].phase == Serving(x.phase.assets)
            && (forall id :: id in s'.trackers[t].watched <==> id in x.watched && id !in x.phase.removals)
            && (forall id :: id in s'.trackers[t].watched ==> s'.trackers[t].watched[id] == x.watched[id])
  {
  }

  ghost predicate Visits(st: Step, t: nat, id: Id) {
    st.TrackerVisit? && st.t == t && st.id == id
  }

  /** The invoice stays on the round's list until its own visit. */
  lemma StaysToVisit(c: Config, s: World, st: Step, t: nat, id: Id)
    requires Enabled(c, s, st) && ToVisit(s, t, id) && !st.Crash? && !Visits(st, t, id)
    ensures ToVisit(Apply(c, s, st), t, id)
  {
    if OfTrackers(st) && st.t == t {
      OnlyRoundSteps(c, s, st);
      match st {
        case TrackerVisit(_, other, now, v) => VisitingChanges(c, s, t, other, now, v);
        case TrackerReport(_) => ReportingKeeps(c, s, t);
        case BlockArrives(_) => BlockArriving(c, s, t);
        case TrackerSettle(_) => Settles(c, s, t);
      }
      hide Apply, Enabled;
    } else {
      OthersKeepRound(c, s, st, t);
      hide Apply, Enabled;
    }
  }

  ghost predicate VisitedOn(steps: seq<Step>, t: nat, id: Id) {
    exists k :: 0 <= k < |steps| && Visits(steps[k], t, id)
  }

  /**
   * In any run, an invoice that a round has to visit is off its list, be it that the round goes on
   * or that it has settled, only after its visit. A crash ends all rounds.
   */
  lemma {:induction false} EveryInvoiceIsVisited(c: Config, s: World, steps: seq<Step>, s': World, t: nat, id: Id)
    requires Runs(c, s, steps, s') && ToVisit(s, t, id) && Crash !in steps && !ToVisit(s', t, id)
    ensures VisitedOn(steps, t, id)
    decreases |steps|
  {
    assert |steps| > 0;
    if Visits(steps[0], t, id) {
      assert VisitedOn(steps, t, id);
    } else {
      StaysToVisit(c, s, steps[0], t, id);
      hide Apply, Enabled, ToVisit;
      EveryInvoiceIsVisited(c, Apply(c, s, steps[0]), steps[1..], s', t, id);
      var k :| 0 <= k < |steps[1..]| && Visits(steps[1..][k], t, id);
      assert steps[k + 1] == steps[1..][k];
    }
  }

  /** An invoice is marked for removal by its own visit only, which found it paid or past the test of its deadline. */
  lemma MarkedByVisit(c: Config, s: World, st: Step, t: nat, id: Id)
    requires Enabled(c, s, st) && !ToRemove(s, t, id) && ToRemove(Apply(c, s, st), t, id)
    ensures Visits(st, t, id) && InRound(s, t) && id in s.trackers[t].watched && Dropped(s.trackers[t].watched[id], st.v)
  {
    if OfTrackers(st) && st.t == t {
      OwnMark(c, s, st, id);
    } else if !st.Crash? {
      SameCount(c, s, st);
      OthersKeepRound(c, s, st, t);
      hide Apply, Enabled;
    }
  }

  lemma SameCount(c: Config, s: World, st: Step)
    requires Enabled(c, s, st) && !st.Crash?
    ensures |Apply(c, s, st).trackers| == |s.trackers|
  {
    if OfTrackers(st) {
      TrackerFrame(c, s, st);
      hide Apply, Enabled;
    } else if OfManager(st) {
      ManagerFrame(c, s, st);
      hide Apply, Enabled;
    } else if OfState(st) {
      StateFrame(c, s, st);
      hide Apply, Enabled;
    } else if st.PayoutStart? {
      PayoutFrame(c, s, st);
      hide Apply, Enabled;
    } else {
      TakeStateMsgFrame(c, s, st.now);
      hide TakeStateMsg;
    }
  }

  lemma OwnMark(c: Config, s: World, st: Step, id: Id)
    requires Enabled(c, s, st) && OfTrackers(st) && !ToRemove(s, st.t, id) && ToRemove(Apply(c, s, st), st.t, id)
    ensures Visits(st, st.t, id) && id in s.trackers[st.t].watched && InRound(s, st.t)
    ensures Dropped(s.trackers[st.t].watched[id], st.v)
  {
    if InRound(s, st.t) {
      OnlyRoundSteps(c, s, st);
      match st {
        case TrackerVisit(t, other, now, v) => VisitingChanges(c, s, t, other, now, v);
        case TrackerReport(t) => ReportingKeeps(c, s, t);
        case BlockArrives(t) => BlockArriving(c, s, t);
        case TrackerSettle(t) => Settles(c, s, t);
      }
      hide Apply, Enabled, Dropped;
    } else {
      NewRoundMarksNothing(c, s, st);
    }
  }

  lemma NewRoundMarksNothing(c: Config, s: World, st: Step)
    requires Enabled(c, s, st) && OfTrackers(st) && !InRound(s, st.t) && InRound(Apply(c, s, st), st.t)
    ensures Apply(c, s, st).trackers[st.t].phase.removals == {}
  {
    if st.TrackerTake? {
      hide CallersIn;
    } else if st.TrackerAnnounce? {
      RoundsStart(c, s, st);
      hide Apply, Enabled;
    } else {
      NoRoundStarts(c, s, st);
      hide Apply, Enabled;
    }
  }

  lemma NoRoundStarts(c: Config, s: World, st: Step)
    requires Enabled(c, s, st) && OfTrackers(st) && !InRound(s, st.t) && !st.TrackerTake? && !st.TrackerAnnounce?
    ensures !InRound(Apply(c, s, st), st.t)
  {
    if st.TrackerVisit? || st.TrackerReport? || st.TrackerSettle? {
      assert false;
    } else {
      hide Prepare, CallersIn;
    }
  }
}
