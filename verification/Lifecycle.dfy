/** The run lifecycle of the engine. Callers start and stop runs and each run has its own
    goroutine; everything done under the engine mutex is one step, and steps of all of
    them interleave. A run is named by the order in which runs were started, and so is
    the done channel made for it. */
module Lifecycle {

  datatype State = Idle | Starting | Running | Stopping | Stopped | Error

  /** What a run goroutine does next. */
  datatype Pc =
    | Setup              // start consumers, wait for them, warm up
    | Launching          // publish "running"
    | Measuring          // wait for the duration or a cancel, then publish "stopping"
    | ShuttingDown       // stop producers, drain, capture, stop consumers
    | Judging            // store the verdict
    | Deferring          // the deferred block: publish "stopped", read the done channel
    | Closing(ch: nat)   // close the channel that was read
    | Ended

  datatype Engine = Engine(
    state: State,
    runs: seq<Pc>,
    cancelled: set<nat>,
    runDone: nat,              // the channel of the last run started
    verdict: int,              // the run whose verdict is stored, or -1
    stopping: set<nat>,        // runs that published "stopping"
    closes: map<nat, nat>)     // how often each channel was closed

  datatype Event = Start | Stop | Go(run: nat, fail: bool)

  const FRESH: Engine := Engine(Idle, [], {}, 0, -1, {}, map[])

  predicate CanStart(e: Engine) {
    e.state == Idle || e.state == Stopped || e.state == Error
  }

  function Closes(e: Engine, ch: nat): nat {
    if ch in e.closes then e.closes[ch] else 0
  }

  /** One step of run `r`; `fail` lets a setup fail. */
  function Move(e: Engine, r: nat, fail: bool): Engine
    requires r < |e.runs|
  {
    match e.runs[r]
    case Setup =>
      if fail then e.(state := Error, runs := e.runs[r := Deferring])
      else if r in e.cancelled then e.(runs := e.runs[r := Deferring])
      else e.(runs := e.runs[r := Launching])
    case Launching => e.(state := Running, runs := e.runs[r := Measuring])
    case Measuring => e.(state := Stopping, stopping := e.stopping + {r}, runs := e.runs[r := ShuttingDown])
    case ShuttingDown => e.(runs := e.runs[r := Judging])
    case Judging => e.(verdict := r, runs := e.runs[r := Deferring])
    case Deferring =>
      e.(state := if e.state == Error then Error else Stopped, runs := e.runs[r := Closing(e.runDone)])
    case Closing(ch) => e.(closes := e.closes[ch := Closes(e, ch) + 1], runs := e.runs[r := Ended])
    case Ended => e
  }

  function Next(e: Engine, ev: Event): Engine {
    match ev
    case Start =>
      if CanStart(e) then e.(state := Starting, verdict := -1, runDone := |e.runs|, runs := e.runs + [Setup]) else e
    case Stop =>
      if e.state == Starting || e.state == Running then e.(cancelled := e.cancelled + {e.runDone}) else e
    case Go(r, fail) => if r < |e.runs| then Move(e, r, fail) else e
  }

  function Exec(e: Engine, events: seq<Event>): Engine {
    if events == [] then e
    else Next(Exec(e, events[..|events| - 1]), events[|events| - 1])
  }

  /** The run body, up to and including its deferred block, is still executing. */
  predicate Live(pc: Pc) {
    !pc.Closing? && !pc.Ended?
  }

  ghost predicate SomeDeferring(e: Engine) {
    exists r :: 0 <= r < |e.runs| && e.runs[r] == Deferring
  }

  ghost predicate OneBody(e: Engine) {
    && (forall r :: 0 <= r < |e.runs| && Live(e.runs[r]) ==> r == e.runDone && r == |e.runs| - 1)
    && (e.state == Idle || e.state == Stopped ==> forall r :: 0 <= r < |e.runs| ==> !Live(e.runs[r]))
    && (e.state == Error ==> forall r :: 0 <= r < |e.runs| && Live(e.runs[r]) ==> e.runs[r] == Deferring)
  }

  ghost predicate ChannelsOnce(e: Engine) {
    && (forall ch :: ch in e.closes ==> 0 <= ch < |e.runs|)
    && (forall r: nat :: r < |e.runs| ==> Closes(e, r) == if e.runs[r] == Ended then 1 else 0)
    && (forall r: nat :: r < |e.runs| && e.runs[r].Closing? ==> e.runs[r].ch == r)
  }

  ghost predicate VerdictOfStopped(e: Engine) {
    && (e.verdict == -1 || (e.verdict == |e.runs| - 1 && e.verdict in e.stopping))
    && (forall r: nat :: r < |e.runs| && (e.runs[r] == ShuttingDown || e.runs[r] == Judging) ==> r in e.stopping)
  }

  ghost predicate Safe(e: Engine) {
    OneBody(e) && ChannelsOnce(e) && VerdictOfStopped(e)
  }

  lemma MoveKeepsBody(e: Engine, r: nat, fail: bool)
    requires OneBody(e) && r < |e.runs|
    ensures OneBody(Move(e, r, fail))
  {
  }

  lemma MoveKeepsChannels(e: Engine, r: nat, fail: bool)
    requires OneBody(e) && ChannelsOnce(e) && r < |e.runs|
    ensures ChannelsOnce(Move(e, r, fail))
  {
  }

  lemma MoveKeepsVerdict(e: Engine, r: nat, fail: bool)
    requires OneBody(e) && VerdictOfStopped(e) && r < |e.runs|
    ensures VerdictOfStopped(Move(e, r, fail))
  {
  }

  /** A start keeps the engine safe exactly when no run is still in its deferred block. */
  lemma StartIsSafeIffDeferredRan(e: Engine)
    requires Safe(e) && CanStart(e)
    ensures Safe(Next(e, Start)) <==> !SomeDeferring(e)
  {
    var after := Next(e, Start);
    if r: nat :| r < |e.runs| && e.runs[r] == Deferring {
      assert after.runs[r] == Deferring && r != |after.runs| - 1;
    } else {
      forall r: nat | r < |e.runs| ensures !Live(e.runs[r]) {
      }
      assert OneBody(after);
      assert ChannelsOnce(after);
      assert VerdictOfStopped(after);
    }
  }

  /** A start from "error" waits until the failed run has gone through its deferred block. */
  ghost predicate Orderly(e: Engine, events: seq<Event>) {
    forall i :: 0 <= i < |events| && events[i] == Start ==>
      (Exec(e, events[..i]).state == Error ==> !SomeDeferring(Exec(e, events[..i])))
  }

  lemma OrderlyPrefix(events: seq<Event>)
    requires events != [] && Orderly(FRESH, events)
    ensures Orderly(FRESH, events[..|events| - 1])
    ensures var last := |events| - 1;
            var e := Exec(FRESH, events[..last]);
            events[last] == Start && e.state == Error ==> !SomeDeferring(e)
  {
    var before := events[..|events| - 1];
    forall i | 0 <= i < |before| ensures before[..i] == events[..i] {
    }
  }

  lemma NextKeepsSafe(e: Engine, ev: Event)
    requires Safe(e)
    requires ev == Start && e.state == Error ==> !SomeDeferring(e)
    ensures Safe(Next(e, ev))
  {
    match ev
    case Start => if CanStart(e) { StartIsSafeIffDeferredRan(e); }
    case Stop =>
    case Go(r, fail) =>
      if r < |e.runs| {
        MoveKeepsBody(e, r, fail);
        MoveKeepsChannels(e, r, fail);
        MoveKeepsVerdict(e, r, fail);
      }
  }

  /** In every orderly interleaving: at most one run body executes, every done channel is
      closed exactly when its own run has ended and never twice, and a stored verdict
      belongs to the last run, which reached "stopping". */
  lemma {:induction false} OrderlyRunsAreSafe(events: seq<Event>)
    requires Orderly(FRESH, events)
    ensures Safe(Exec(FRESH, events))
  {
    if events != [] {
      var before := events[..|events| - 1];
      OrderlyPrefix(events);
      OrderlyRunsAreSafe(before);
      NextKeepsSafe(Exec(FRESH, before), events[|events| - 1]);
    }
  }

  // ---- what the engine publishes while the last run is at each place ----

  /** The last run has published "stopping" and been judged exactly when its verdict is the one
      stored; one that ended without a verdict failed in setup or was cancelled. */
  ghost predicate Told(e: Engine) {
    if e.runs == [] then e.state == Idle && e.verdict == -1
    else
      var last := |e.runs| - 1;
      && e.runDone == last
      && (e.verdict == -1 || e.verdict == last)
      && match e.runs[last]
         case Setup => e.state == Starting && e.verdict == -1 && last !in e.stopping
         case Launching => e.state == Starting && e.verdict == -1 && last !in e.stopping
         case Measuring => e.state == Running && e.verdict == -1 && last !in e.stopping
         case ShuttingDown => e.state == Stopping && e.verdict == -1 && last in e.stopping
         case Judging => e.state == Stopping && e.verdict == -1 && last in e.stopping
         case Deferring =>
           && Ending(e, last)
           && (if last in e.stopping then e.state == Stopping else e.state == Starting || e.state == Error)
         case Closing(_) => Ending(e, last) && (e.state == Stopped || e.state == Error)
         case Ended => Ending(e, last) && (e.state == Stopped || e.state == Error)
  }

  ghost predicate Ending(e: Engine, last: nat) {
    && (last in e.stopping <==> e.verdict == last)
    && (last in e.stopping ==> e.state != Error)
    && (last !in e.stopping ==> e.state == Error || last in e.cancelled)
  }

  // Only the last run is past no return, so only it can change what is told.
  lemma MoveKeepsTold(e: Engine, r: nat, fail: bool)
    requires OneBody(e) && Told(e) && r < |e.runs|
    ensures Told(Move(e, r, fail))
  {
    var after := Move(e, r, fail);
    assert |after.runs| == |e.runs|;
    if r < |e.runs| - 1 {
      assert !Live(e.runs[r]);
      assert after.runs[|e.runs| - 1] == e.runs[|e.runs| - 1];
    }
  }

  /** Runs that published "stopping" exist, so a new run is not among them. */
  ghost predicate StoppingExist(e: Engine) {
    forall r :: r in e.stopping ==> r < |e.runs|
  }

  lemma NextKeepsTold(e: Engine, ev: Event)
    requires Safe(e) && Told(e) && StoppingExist(e)
    requires ev == Start && e.state == Error ==> !SomeDeferring(e)
    ensures Told(Next(e, ev)) && StoppingExist(Next(e, ev))
  {
    if ev.Go? && ev.run < |e.runs| {
      MoveKeepsTold(e, ev.run, ev.fail);
    }
  }

  /** In every orderly interleaving the published state and the stored verdict follow from
      where the last run is: starting, running, stopping, and in the end stopped or error;
      the verdict of a run is stored exactly when it has been shut down and judged. */
  lemma {:induction false} OrderlyRunsTell(events: seq<Event>)
    requires Orderly(FRESH, events)
    ensures Told(Exec(FRESH, events)) && StoppingExist(Exec(FRESH, events))
  {
    if events != [] {
      var before := events[..|events| - 1];
      OrderlyPrefix(events);
      OrderlyRunsAreSafe(before);
      OrderlyRunsTell(before);
      NextKeepsTold(Exec(FRESH, before), events[|events| - 1]);
    }
  }

  /** The last run has not published "stopping" and has not given up. */
  predicate CanBeStopped(e: Engine) {
    e.runs != [] && var pc := e.runs[|e.runs| - 1]; pc.Setup? || pc.Launching? || pc.Measuring?
  }

  lemma StopWhenTold(e: Engine)
    requires Told(e)
    ensures Next(e, Stop) == if CanBeStopped(e) then e.(cancelled := e.cancelled + {|e.runs| - 1}) else e
  {
    if e.runs != [] && !CanBeStopped(e) && e.state == Starting {
      assert e.cancelled + {|e.runs| - 1} == e.cancelled;
    }
  }

  /** A stop cancels the last run while that run can still be stopped, and otherwise changes
      nothing. */
  lemma StopCancelsLastRun(events: seq<Event>, e: Engine)
    requires Orderly(FRESH, events) && e == Exec(FRESH, events)
    ensures Next(e, Stop) == if CanBeStopped(e) then e.(cancelled := e.cancelled + {|e.runs| - 1}) else e
  {
    OrderlyRunsTell(events);
    StopWhenTold(e);
  }

  /** A run in setup goes on to measure exactly when its setup succeeds and it has not been
      cancelled; "error" is published exactly when the setup fails. */
  lemma SetupDecides(e: Engine, fail: bool)
    requires Told(e) && e.runs != [] && e.runs[|e.runs| - 1] == Setup
    ensures var last := |e.runs| - 1;
            var after := Next(e, Go(last, fail));
            && |after.runs| == |e.runs|
            && (after.state == Error <==> fail)
            && after.runs[last] == if fail || last in e.cancelled then Deferring else Launching
  {
  }

  lemma ExecStep(e: Engine, events: seq<Event>, ev: Event)
    ensures Exec(e, events + [ev]) == Next(Exec(e, events), ev)
  {
    assert (events + [ev])[..|events|] == events;
  }

  // The hasty start, then the failed run's deferred block, which now reads the new channel.
  lemma HastyStart(e: Engine, r: nat) returns (events: seq<Event>)
    requires Safe(e) && e.state == Error && r < |e.runs| && e.runs[r] == Deferring
    ensures Exec(e, events) == e.(state := Stopped, verdict := -1, runDone := |e.runs|,
                                  runs := e.runs[r := Closing(|e.runs|)] + [Setup])
  {
    ExecStep(e, [], Start);
    ExecStep(e, [Start], Go(r, false));
    events := [Start] + [Go(r, false)];
    assert (e.runs + [Setup])[r := Closing(|e.runs|)] == e.runs[r := Closing(|e.runs|)] + [Setup];
  }

  /** Runs `a` and `b` are both in their setup. */
  predicate BothInSetup(e: Engine, a: nat, b: nat) {
    a < |e.runs| && b < |e.runs| && e.runs[a] == Setup && e.runs[b] == Setup
  }

  /** Without the wait, two run bodies can execute at once. */
  lemma HastyStartRunsTwoBodies(e: Engine, r: nat)
    requires Safe(e) && e.state == Error && r < |e.runs| && e.runs[r] == Deferring
    ensures exists events :: BothInSetup(Exec(e, events), |e.runs|, |e.runs| + 1)
  {
    var events := HastyStart(e, r);
    ExecStep(e, events, Start);
    assert BothInSetup(Exec(e, events + [Start]), |e.runs|, |e.runs| + 1);
  }

  /** Run `r` has ended without closing its own channel, and channel `n` was closed twice. */
  predicate WrongCloses(e: Engine, r: nat, n: nat) {
    r < |e.runs| && e.runs[r] == Ended && Closes(e, r) == 0 && Closes(e, n) == 2
  }

  // A run in setup fails and takes the current channel to close.
  lemma FailedRunDefers(e: Engine, events: seq<Event>, n: nat) returns (all: seq<Event>)
    requires var v := Exec(e, events); n < |v.runs| && v.runs[n] == Setup && v.runDone == n
    ensures var v := Exec(e, events);
            Exec(e, all) == v.(state := Error, runs := v.runs[n := Closing(n)])
  {
    var v := Exec(e, events);
    var ev := Go(n, true);
    all := events + [ev];
    ExecStep(e, events, ev);
    var v1 := v.(state := Error, runs := v.runs[n := Deferring]);
    assert Exec(e, all) == v1;
    ExecStep(e, all, ev);
    all := all + [ev];
    assert v1.runs[n := Closing(n)] == v.runs[n := Closing(n)];
  }

  // A run in setup that owns the current channel fails, defers and closes that channel.
  lemma FailedRunCloses(e: Engine, events: seq<Event>, n: nat) returns (all: seq<Event>)
    requires var v := Exec(e, events); n < |v.runs| && v.runs[n] == Setup && v.runDone == n
    ensures var v := Exec(e, events);
            Exec(e, all).runs == v.runs[n := Ended] && Exec(e, all).closes == v.closes[n := Closes(v, n) + 1]
  {
    var v := Exec(e, events);
    all := FailedRunDefers(e, events, n);
    ExecStep(e, all, Go(n, true));
    all := all + [Go(n, true)];
    assert v.runs[n := Closing(n)][n := Ended] == v.runs[n := Ended];
  }

  /** Without the wait, the new run's channel can be closed twice, which panics, and the
      failed run's own channel is never closed. */
  lemma HastyStartClosesTwice(e: Engine, r: nat)
    requires Safe(e) && e.state == Error && r < |e.runs| && e.runs[r] == Deferring
    ensures exists events :: WrongCloses(Exec(e, events), r, |e.runs|)
  {
    var n := |e.runs|;
    var events := HastyStart(e, r);
    ExecStep(e, events, Go(r, false));
    events := events + [Go(r, false)];
    events := FailedRunCloses(e, events, n);
    assert WrongCloses(Exec(e, events), r, n);
  }
}
