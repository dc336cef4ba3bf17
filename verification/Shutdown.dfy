// Why the daemon shuts down: the shared reason and cancellation token, written by task failures,
// the signal listener and the panic hook; and the exit code that results.
module Shutdown {

  datatype ShutdownReason = UserRequested | UnrecoverableError

  /**
   * What happens to the daemon; ListenerWakes is the listener noticing a cancellation by others. A
   * panic can be in a task of the asynchronous runtime or outside of it.
   */
  datatype Event = TaskError | CtrlC | ListenerWakes | Panicked(inRuntime: bool)

  /** The listener waits for the first signal or a cancellation, then, armed, for a second signal. */
  datatype Daemon = Daemon(reason: ShutdownReason, cancelled: bool, failed: bool, armed: bool, aborted: bool)

  datatype ExitCode = Success | Failure | Killed

  const STARTED: Daemon := Daemon(UserRequested, false, false, false, false)

  function Ignited(d: Daemon): Daemon {
    d.(reason := UnrecoverableError, cancelled := true)
  }

  /**
   * The effect of one event. Unwinding builds survive a panic outside the runtime, the release
   * profile aborts. Inside the runtime the hook's own blocking read of the reason panics, which
   * aborts every build before anything is printed or cancelled.
   */
  function Next(unwinds: bool, d: Daemon, e: Event): Daemon {
    if d.aborted then d
    else
      match e
      case TaskError => if d.failed || !d.cancelled then Ignited(d).(failed := true) else d
      case CtrlC => if d.armed then d.(aborted := true) else d.(cancelled := true, armed := true)
      case ListenerWakes => if d.cancelled then d.(armed := true) else d
      case Panicked(inRuntime) =>
        if inRuntime then d.(aborted := true) else d.(cancelled := true, aborted := !unwinds)
  }

  function After(unwinds: bool, events: seq<Event>): Daemon {
    if |events| == 0 then STARTED
    else Next(unwinds, After(unwinds, events[..|events| - 1]), events[|events| - 1])
  }

  function Exit(d: Daemon): ExitCode {
    if d.aborted then Killed else if d.reason.UserRequested? then Success else Failure
  }

  class ShutdownNotification {
    var cancelled: bool
    var reason: ShutdownReason

    constructor ()
      ensures !cancelled && reason == UserRequested
    {
      cancelled, reason := false, UserRequested;
    }

    method Ignite()
      modifies this
      ensures cancelled && reason == UnrecoverableError
    {
      reason := UnrecoverableError;
      cancelled := true;
    }

    /** As written, outside the runtime: the reason is set to what it already is, or not at all. */
    method PanicHook() returns (first: bool)
      modifies this
      ensures cancelled && reason == old(reason)
      ensures first <==> old(reason) == UnrecoverableError
    {
      match reason {
        case UserRequested =>
          first := false;
        case UnrecoverableError =>
          reason := UnrecoverableError;
          first := true;
      }
      cancelled := true;
    }

    /** The error loop, the listener and the hook over everything that happens; which panics asked for a report. */
    method WaitWithNotification(unwinds: bool, events: seq<Event>) returns (exit: ExitCode, asked: seq<nat>)
      requires !cancelled && reason == UserRequested
      modifies this
      ensures exit == Exit(After(unwinds, events))
      ensures reason == After(unwinds, events).reason && cancelled == After(unwinds, events).cancelled
      ensures forall i: nat :: i in asked <==> i < |events| && AsksForReport(unwinds, events, i)
    {
      var failed, armed, aborted := false, false, false;
      asked := [];
      for i := 0 to |events|
        invariant Daemon(reason, cancelled, failed, armed, aborted) == After(unwinds, events[..i])
        invariant forall k: nat :: k in asked <==> k < i && AsksForReport(unwinds, events, k)
      {
        assert events[..i + 1][..i] == events[..i];
        if !aborted {
          match events[i] {
            case TaskError =>
              if failed || !cancelled {
                failed := true;
                Ignite();
              }
            case CtrlC =>
              if armed {
                aborted := true;
              } else {
                cancelled := true;
                armed := true;
              }
            case ListenerWakes =>
              if cancelled {
                armed := true;
              }
            case Panicked(inRuntime) =>
              if inRuntime {
                aborted := true;
              } else {
                var first := PanicHook();
                if first {
                  asked := asked + [i];
                }
                aborted := !unwinds;
              }
          }
        }
      }
      assert events[..|events|] == events;
      exit := if aborted then Killed else if reason.UserRequested? then Success else Failure;
    }
  }

  /** The i-th event is a panic whose message asks to report a bug. */
  predicate AsksForReport(unwinds: bool, events: seq<Event>, i: nat)
    requires i < |events|
  {
    var d := After(unwinds, events[..i]);
    events[i] == Panicked(false) && !d.aborted && d.reason.UnrecoverableError?
  }

  /** Of all that cancels, a failing task came first. */
  ghost predicate FailureFirst(events: seq<Event>) {
    exists i :: 0 <= i < |events| && events[i].TaskError? && forall j :: 0 <= j < i ==> events[j].ListenerWakes?
  }

  /** Nothing that cancels happened. */
  ghost predicate OnlyWakes(events: seq<Event>) {
    forall e :: e in events ==> e.ListenerWakes?
  }

  lemma FailureFirstGrows(events: seq<Event>)
    requires |events| > 0
    ensures var before := events[..|events| - 1];
            FailureFirst(events)
            <==> (FailureFirst(before) || (events[|events| - 1].TaskError? && OnlyWakes(before)))
  {
    var before := events[..|events| - 1];
    if FailureFirst(before) {
      var i :| 0 <= i < |before| && before[i].TaskError? && forall j :: 0 <= j < i ==> before[j].ListenerWakes?;
      assert events[i] == before[i] && forall j :: 0 <= j < i ==> events[j] == before[j];
    }
    if FailureFirst(events) && !FailureFirst(before) {
      var i :| 0 <= i < |events| && events[i].TaskError? && forall j :: 0 <= j < i ==> events[j].ListenerWakes?;
      assert forall j :: 0 <= j < |before| ==> before[j] == events[j];
      assert i == |before|;
    }
    if events[|events| - 1].TaskError? && OnlyWakes(before) {
      assert forall j :: 0 <= j < |before| ==> events[j] == before[j] && before[j] in before;
    }
  }

  /** The daemon is cancelled or gone as soon as anything happened to it, and failed only if that was a failing task. */
  lemma {:induction false} ReasonIff(unwinds: bool, events: seq<Event>)
    ensures var d := After(unwinds, events);
            && (d.reason.UnrecoverableError? <==> FailureFirst(events))
            && (d.failed <==> FailureFirst(events))
            && (!d.cancelled && !d.aborted <==> OnlyWakes(events))
            && (!d.cancelled ==> !d.armed)
  {
    if |events| > 0 {
      var before := events[..|events| - 1];
      ReasonIff(unwinds, before);
      FailureFirstGrows(events);
      var last := events[|events| - 1];
      assert events == before + [last];
      assert OnlyWakes(events) <==> OnlyWakes(before) && last.ListenerWakes?;
      hide FailureFirst;
    }
  }

  /**
   * Unless it was killed, the daemon exits with a failure exactly when a task failed before any
   * signal or panic: after a panic alone, or an error during a requested shutdown, it reports success.
   */
  lemma ExitIff(unwinds: bool, events: seq<Event>)
    requires !After(unwinds, events).aborted
    ensures Exit(After(unwinds, events)) == if FailureFirst(events) then Failure else Success
  {
    ReasonIff(unwinds, events);
  }

  /** A panic asks for a bug report only after a task failure started the shutdown, however many panics came before. */
  lemma ReportIff(unwinds: bool, events: seq<Event>, i: nat)
    requires i < |events|
    ensures AsksForReport(unwinds, events, i)
       <==> events[i] == Panicked(false) && !After(unwinds, events[..i]).aborted && FailureFirst(events[..i])
  {
    ReasonIff(unwinds, events[..i]);
  }

  /** What the message is meant for: the first panic. It never happens in a run that starts with one. */
  lemma FirstPanicGoesUnreported(unwinds: bool, events: seq<Event>, i: nat)
    requires |events| > 0 && events[0].Panicked? && i < |events|
    ensures !AsksForReport(unwinds, events, i)
  {
    ReportIff(unwinds, events, i);
    if FailureFirst(events[..i]) {
      var k :| 0 <= k < i && events[..i][k].TaskError? && forall j :: 0 <= j < k ==> events[..i][j].ListenerWakes?;
      assert k > 0 ==> events[..i][0].ListenerWakes?;
    }
  }

  /** The listener waits for a second signal: after a first one, or woken after anything that cancels. */
  ghost predicate AwaitsSecond(events: seq<Event>) {
    exists i :: 0 <= i < |events| && Arms(events, i)
  }

  ghost predicate Arms(events: seq<Event>, i: nat)
    requires i < |events|
  {
    events[i].CtrlC? || (events[i].ListenerWakes? && !OnlyWakes(events[..i]))
  }

  /** What kills the process: a panic inside the runtime, any panic in a build that aborts, or a second signal. */
  ghost predicate Kills(unwinds: bool, events: seq<Event>, j: nat)
    requires j < |events|
  {
    events[j] == Panicked(true) || (events[j] == Panicked(false) && !unwinds)
    || (events[j].CtrlC? && AwaitsSecond(events[..j]))
  }

  lemma ArmsGrow(events: seq<Event>)
    requires |events| > 0
    ensures AwaitsSecond(events) <==> AwaitsSecond(events[..|events| - 1]) || Arms(events, |events| - 1)
  {
    var n := |events| - 1;
    var before := events[..n];
    forall i | 0 <= i < n ensures Arms(events, i) <==> Arms(before, i) {
      assert before[..i] == events[..i];
    }
    hide Arms;
    if AwaitsSecond(before) {
      var i :| 0 <= i < n && Arms(before, i);
      assert Arms(events, i);
    }
  }

  lemma KillsGrow(unwinds: bool, events: seq<Event>)
    requires |events| > 0
    ensures var n := |events| - 1;
            (exists j :: 0 <= j < |events| && Kills(unwinds, events, j))
            <==> ((exists j :: 0 <= j < n && Kills(unwinds, events[..n], j)) || Kills(unwinds, events, n))
  {
    var n := |events| - 1;
    var before := events[..n];
    forall j | 0 <= j < n ensures Kills(unwinds, events, j) <==> Kills(unwinds, before, j) {
      assert before[..j] == events[..j];
    }
    hide Kills;
    if j :| 0 <= j < n && Kills(unwinds, before, j) {
      assert Kills(unwinds, events, j);
    }
  }

  /**
   * Exactly when the daemon is killed: a single signal never kills it, a second one always does, and
   * so does one that comes after the listener noticed another reason to shut down.
   */
  lemma {:induction false} KilledIff(unwinds: bool, events: seq<Event>)
    ensures After(unwinds, events).aborted <==> exists j :: 0 <= j < |events| && Kills(unwinds, events, j)
    ensures !After(unwinds, events).aborted ==> (After(unwinds, events).armed <==> AwaitsSecond(events))
  {
    if |events| > 0 {
      var n := |events| - 1;
      KilledIff(unwinds, events[..n]);
      ReasonIff(unwinds, events[..n]);
      ArmsGrow(events);
      KillsGrow(unwinds, events);
      hide AwaitsSecond, OnlyWakes;
    }
  }
}
