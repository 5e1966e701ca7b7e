/** Exactly-once ack accounting. Handlers of the exactly_once worker run concurrently;
    each shared counter is an atomic, so one step below is one atomic operation, and a
    run is any interleaving of the steps of any number of handlers. Which acks succeed
    is the broker's choice. */
module ExactlyOnce {
  import opened Weights

  /** Where a handler is: the operation it does next. */
  datatype Pc =
    | Receiving            // count the message as received
    | FirstAck             // wait for the first ack
    | Failing              // count it as unreconciled
    | Retrying             // wait for the second ack
    | Loading              // reconcile: read the unreconciled counter
    | Swapping(seen: nat)  // reconcile: compare-and-swap seen to seen - 1
    | Confirming           // count it as confirmed
    | Acking               // count it as acked
    | Erring               // count an error
    | Done
    | Failed

  datatype World = World(
    handlers: map<nat, Pc>,
    received: nat,
    confirmed: nat,
    unreconciled: nat,
    acked: nat,
    errors: nat)

  datatype Event = Deliver(h: nat) | Advance(h: nat, ok: bool)

  /** One atomic operation of handler `h`; `ok` is the outcome of an ack that it waits for. */
  function Move(w: World, h: nat, ok: bool): World
    requires h in w.handlers
  {
    match w.handlers[h]
    case Receiving => w.(handlers := w.handlers[h := FirstAck], received := w.received + 1)
    case FirstAck => w.(handlers := w.handlers[h := if ok then Confirming else Failing])
    case Failing => w.(handlers := w.handlers[h := Retrying], unreconciled := w.unreconciled + 1)
    case Retrying => w.(handlers := w.handlers[h := if ok then Loading else Erring])
    case Loading =>
      w.(handlers := w.handlers[h := if w.unreconciled == 0 then Confirming else Swapping(w.unreconciled)])
    case Swapping(seen) =>
      if w.unreconciled == seen && seen > 0 then w.(handlers := w.handlers[h := Confirming], unreconciled := seen - 1)
      else w.(handlers := w.handlers[h := Loading])
    case Confirming => w.(handlers := w.handlers[h := Acking], confirmed := w.confirmed + 1)
    case Acking => w.(handlers := w.handlers[h := Done], acked := w.acked + 1)
    case Erring => w.(handlers := w.handlers[h := Failed], errors := w.errors + 1)
    case Done => w
    case Failed => w
  }

  function Next(w: World, e: Event): World {
    match e
    case Deliver(h) => if h in w.handlers then w else w.(handlers := w.handlers[h := Receiving])
    case Advance(h, ok) => if h in w.handlers then Move(w, h, ok) else w
  }

  const IDLE: World := World(map[], 0, 0, 0, 0, 0)

  function Exec(w: World, events: seq<Event>): World {
    if events == [] then w
    else Next(Exec(w, events[..|events| - 1]), events[|events| - 1])
  }

  // ---- what each counter counts ----

  /** Recorded as failed and not (yet) reconciled. */
  function Owes(pc: Pc): nat {
    match pc case Retrying => 1 case Loading => 1 case Swapping(_) => 1 case Erring => 1 case Failed => 1 case _ => 0
  }

  function Confirmed(pc: Pc): nat {
    match pc case Acking => 1 case Done => 1 case _ => 0
  }

  function Acked(pc: Pc): nat {
    match pc case Done => 1 case _ => 0
  }

  function Received(pc: Pc): nat {
    match pc case Receiving => 0 case _ => 1
  }

  function Errored(pc: Pc): nat {
    match pc case Failed => 1 case _ => 0
  }

  ghost predicate Balanced(w: World) {
    && w.unreconciled == Weight(w.handlers, Owes)
    && w.confirmed == Weight(w.handlers, Confirmed)
    && w.acked == Weight(w.handlers, Acked)
    && w.received == Weight(w.handlers, Received)
    && w.errors == Weight(w.handlers, Errored)
  }

  lemma ShiftAll(w: World, h: nat, pc: Pc)
    ensures var m := w.handlers[h := pc];
            var was := if h in w.handlers then w.handlers[h] else Receiving;
            && Weight(m, Owes) == Weight(w.handlers, Owes) + Owes(pc) - Owes(was)
            && Weight(m, Confirmed) == Weight(w.handlers, Confirmed) + Confirmed(pc) - Confirmed(was)
            && Weight(m, Acked) == Weight(w.handlers, Acked) + Acked(pc) - Acked(was)
            && Weight(m, Received) == Weight(w.handlers, Received) + Received(pc) - Received(was)
            && Weight(m, Errored) == Weight(w.handlers, Errored) + Errored(pc) - Errored(was)
  {
    WeightUpdate(w.handlers, h, pc, Owes);
    WeightUpdate(w.handlers, h, pc, Confirmed);
    WeightUpdate(w.handlers, h, pc, Acked);
    WeightUpdate(w.handlers, h, pc, Received);
    WeightUpdate(w.handlers, h, pc, Errored);
  }

  /** A handler about to reconcile is itself counted, so the counter is not zero. */
  lemma OwedIsCounted(w: World, h: nat)
    requires w.unreconciled == Weight(w.handlers, Owes)
    requires h in w.handlers && Owes(w.handlers[h]) == 1
    ensures w.unreconciled >= 1
  {
    WeightRemove(w.handlers, h, Owes);
  }

  // A step moves each counter as it moves the handler past the increment.
  lemma MoveCounts(w: World, h: nat, ok: bool)
    requires h in w.handlers && (w.handlers[h] == Loading ==> w.unreconciled >= 1)
    ensures var after := Move(w, h, ok);
            h in after.handlers && after.handlers == w.handlers[h := after.handlers[h]]
    ensures var after := Move(w, h, ok);
            var was, pc := w.handlers[h], after.handlers[h];
            && after.unreconciled == w.unreconciled + Owes(pc) - Owes(was)
            && after.confirmed == w.confirmed + Confirmed(pc) - Confirmed(was)
            && after.acked == w.acked + Acked(pc) - Acked(was)
            && after.received == w.received + Received(pc) - Received(was)
            && after.errors == w.errors + Errored(pc) - Errored(was)
  {
  }

  lemma MoveKeepsBalance(w: World, h: nat, ok: bool)
    requires Balanced(w) && h in w.handlers
    ensures Balanced(Move(w, h, ok))
  {
    if w.handlers[h] == Loading {
      OwedIsCounted(w, h);
    }
    MoveCounts(w, h, ok);
    ShiftAll(w, h, Move(w, h, ok).handlers[h]);
  }

  /** In every interleaving each counter is the number of handlers past its increment, and
      the unreconciled counter the number of handlers past a failed first ack whose retry
      has not been reconciled. */
  lemma {:induction false} EveryRunIsBalanced(events: seq<Event>)
    ensures Balanced(Exec(IDLE, events))
  {
    if events != [] {
      var w := Exec(IDLE, events[..|events| - 1]);
      EveryRunIsBalanced(events[..|events| - 1]);
      match events[|events| - 1]
      case Deliver(h) => if h !in w.handlers { ShiftAll(w, h, Receiving); }
      case Advance(h, ok) => if h in w.handlers { MoveKeepsBalance(w, h, ok); }
    }
  }

  /** Reconciling never finds the counter at zero and never takes it below zero: a load is
      always followed by a compare-and-swap from a positive value. */
  lemma ReconcileNeverFindsZero(events: seq<Event>, h: nat, ok: bool)
    requires h in Exec(IDLE, events).handlers
    ensures var w := Exec(IDLE, events);
            && (w.handlers[h].Loading? ==> w.unreconciled > 0 && Move(w, h, ok).handlers[h].Swapping?)
            && (w.handlers[h].Swapping? ==> w.handlers[h].seen > 0)
  {
    EveryRunIsBalanced(events);
    SwapsArePositive(events);
    var w := Exec(IDLE, events);
    if w.handlers[h].Loading? {
      OwedIsCounted(w, h);
    }
  }

  ghost predicate PositiveSwaps(w: World) {
    forall h :: h in w.handlers && w.handlers[h].Swapping? ==> w.handlers[h].seen > 0
  }

  lemma {:induction false} SwapsArePositive(events: seq<Event>)
    ensures PositiveSwaps(Exec(IDLE, events))
  {
    if events != [] {
      SwapsArePositive(events[..|events| - 1]);
    }
  }

  ghost predicate Quiet(w: World) {
    forall h :: h in w.handlers ==> w.handlers[h].Done? || w.handlers[h].Failed?
  }

  lemma QuietAccounting(w: World)
    requires Balanced(w) && Quiet(w)
    ensures w.confirmed + w.unreconciled == |w.handlers| == w.received
    ensures w.acked == w.confirmed && w.errors == w.unreconciled
  {
    QuietSums(w.handlers);
    QuietPairs(w.handlers);
  }

  lemma QuietSums(m: map<nat, Pc>)
    requires forall h :: h in m ==> m[h].Done? || m[h].Failed?
    ensures Weight(m, Confirmed) + Weight(m, Owes) == Weight(m, Received) == |m|
  {
    WeightSum(m, Confirmed, Owes, Received);
    WeightOne(m, Received);
  }

  lemma QuietPairs(m: map<nat, Pc>)
    requires forall h :: h in m ==> m[h].Done? || m[h].Failed?
    ensures Weight(m, Confirmed) == Weight(m, Acked) && Weight(m, Owes) == Weight(m, Errored)
  {
    WeightSame(m, Confirmed, Acked);
    WeightSame(m, Owes, Errored);
  }

  // ---- the outcomes of the acks ----

  /** The outcomes handed to handler `h`, one for each step it was given. Its second step
      waits for the first ack, and its fourth, if that one failed, for the retry. */
  function Steps(events: seq<Event>, h: nat): seq<bool> {
    if events == [] then []
    else
      var before := events[..|events| - 1];
      match events[|events| - 1]
      case Deliver(_) => Steps(before, h)
      case Advance(g, ok) => if g == h && Deliver(h) in before then Steps(before, h) + [ok] else Steps(before, h)
  }

  predicate FirstAckSucceeded(steps: seq<bool>) {
    |steps| >= 2 && steps[1]
  }

  predicate RetrySucceeded(steps: seq<bool>) {
    |steps| >= 4 && !steps[1] && steps[3]
  }

  /** The broker confirmed one of the two acks. */
  predicate Succeeded(steps: seq<bool>) {
    FirstAckSucceeded(steps) || RetrySucceeded(steps)
  }

  /** Where a handler is, from the outcomes alone; only how far a reconciliation has got
      depends on the other handlers. */
  ghost predicate Follows(pc: Pc, steps: seq<bool>) {
    if FirstAckSucceeded(steps) then
      pc == if |steps| == 2 then Confirming else if |steps| == 3 then Acking else Done
    else if RetrySucceeded(steps) then
      pc.Loading? || pc.Swapping? || pc.Confirming? || pc.Acking? || pc.Done?
    else
      pc == if |steps| == 0 then Receiving else if |steps| == 1 then FirstAck else if |steps| == 2 then Failing
            else if |steps| == 3 then Retrying else if |steps| == 4 then Erring else Failed
  }

  lemma MoveFollows(w: World, h: nat, ok: bool, steps: seq<bool>)
    requires h in w.handlers && Follows(w.handlers[h], steps)
    ensures h in Move(w, h, ok).handlers && Follows(Move(w, h, ok).handlers[h], steps + [ok])
  {
    var more := steps + [ok];
    assert forall i :: 0 <= i < |steps| ==> more[i] == steps[i];
  }

  /** In every run each handler is where the outcomes of its own acks put it. */
  lemma {:induction false} HandlersFollowOutcomes(events: seq<Event>, h: nat)
    ensures h in Exec(IDLE, events).handlers <==> Deliver(h) in events
    ensures h in Exec(IDLE, events).handlers ==> Follows(Exec(IDLE, events).handlers[h], Steps(events, h))
    ensures Deliver(h) !in events ==> Steps(events, h) == []
  {
    if events != [] {
      var last := |events| - 1;
      var before := events[..last];
      assert events == before + [events[last]];
      HandlersFollowOutcomes(before, h);
      match events[last]
      case Deliver(g) =>
      case Advance(g, ok) =>
        var w := Exec(IDLE, before);
        if g == h && h in w.handlers {
          MoveFollows(w, h, ok, Steps(before, h));
        }
    }
  }

  /** A message counts as confirmed only after a successful ack, and a handler gives up only
      after both acks failed. */
  lemma ConfirmedMeansSucceeded(events: seq<Event>, h: nat)
    requires h in Exec(IDLE, events).handlers
    ensures var pc, steps := Exec(IDLE, events).handlers[h], Steps(events, h);
            && (pc.Loading? || pc.Swapping? || pc.Confirming? || pc.Acking? || pc.Done? <==> Succeeded(steps))
            && (pc.Erring? || pc.Failed? <==> |steps| >= 4 && !steps[1] && !steps[3])
  {
    HandlersFollowOutcomes(events, h);
  }

  /** The messages handled so far for which the broker confirmed an ack. */
  ghost function Successes(events: seq<Event>): set<nat> {
    set h | h in Exec(IDLE, events).handlers && Succeeded(Steps(events, h))
  }

  lemma SuccessesCount(events: seq<Event>)
    requires Quiet(Exec(IDLE, events))
    ensures |Successes(events)| == Weight(Exec(IDLE, events).handlers, Confirmed)
  {
    var m := Exec(IDLE, events).handlers;
    forall h | h in m ensures Confirmed(m[h]) == 1 <==> Succeeded(Steps(events, h)) {
      ConfirmedMeansSucceeded(events, h);
    }
    assert Successes(events) == Ones(m, Confirmed);
    WeightCounts(m, Confirmed);
  }

  /** When every handler has finished: confirmed and acked are the messages with a successful
      ack, unreconciled and errors the others, and the gate passes exactly when every message
      had one. */
  lemma FinalAccounting(events: seq<Event>)
    requires Quiet(Exec(IDLE, events))
    ensures var w := Exec(IDLE, events);
            && w.confirmed == w.acked == |Successes(events)|
            && w.unreconciled == w.errors == |w.handlers| - |Successes(events)|
            && w.received == |w.handlers|
            && (w.unreconciled == 0 <==> Successes(events) == w.handlers.Keys)
            && (w.unreconciled == 0 <==> forall h :: h in w.handlers ==> w.handlers[h].Done?)
  {
    var w := Exec(IDLE, events);
    EveryRunIsBalanced(events);
    QuietAccounting(w);
    SuccessesCount(events);
    SubsetIsAll(Successes(events), w.handlers.Keys);
    assert |w.handlers| == |w.handlers.Keys|;
    WeightZero(w.handlers, Owes);
  }

  lemma SubsetIsAll(a: set<nat>, b: set<nat>)
    requires a <= b
    ensures |a| <= |b| && (|a| == |b| <==> a == b)
  {
    assert b == a + (b - a);
    assert |b| == |a| + |b - a|;
    if |a| == |b| {
      assert b - a == {};
      assert b == a;
    }
  }

  // ---- the compare-and-swap loop cannot go on for ever ----

  /** Changes to the unreconciled counter a handler may still make. */
  function Changes(pc: Pc): nat {
    match pc
    case Receiving => 2 case FirstAck => 2 case Failing => 2
    case Retrying => 1 case Loading => 1 case Swapping(_) => 1
    case _ => 0
  }

  /** Steps a handler may still take while the counter stays at `u`. */
  function Effort(u: nat): Pc -> nat {
    (pc: Pc) => match pc
      case Receiving => 9 case FirstAck => 8 case Failing => 7 case Retrying => 6
      case Swapping(seen) => if seen == u && seen > 0 then 3 else 5
      case Loading => 4 case Confirming => 2 case Acking => 1 case Erring => 1
      case _ => 0
  }

  predicate Finished(pc: Pc) {
    pc.Done? || pc.Failed?
  }

  ghost function Left(w: World): nat {
    Weight(w.handlers, Changes)
  }

  ghost function Slack(w: World): nat {
    Weight(w.handlers, Effort(w.unreconciled))
  }

  lemma MoveProgress(w: World, h: nat, ok: bool)
    requires h in w.handlers && !Finished(w.handlers[h])
    ensures var after := Move(w, h, ok);
            Left(after) < Left(w) || (Left(after) == Left(w) && Slack(after) < Slack(w))
  {
    var after := Move(w, h, ok);
    var pc := after.handlers[h];
    WeightUpdate(w.handlers, h, pc, Changes);
    WeightUpdate(w.handlers, h, pc, Effort(w.unreconciled));
    assert after.handlers == w.handlers[h := pc];
  }

  /** An upper bound on the steps the handlers of `w` can still take together. */
  ghost function Rank(w: World): nat {
    (9 * |w.handlers| + 1) * Left(w) + Slack(w)
  }

  lemma RankFalls(left: nat, slack: nat, left': nat, slack': nat, bound: nat)
    requires slack' <= bound
    requires left' < left || (left' == left && slack' < slack)
    ensures (bound + 1) * left' + slack' < (bound + 1) * left + slack
  {
    if left' < left {
      TimesNext(bound + 1, left');
      TimesMonotone(bound + 1, left' + 1, left);
    }
  }

  lemma SlackBound(w: World)
    ensures Slack(w) <= 9 * |w.handlers|
  {
    WeightBound(w.handlers, Effort(w.unreconciled), 9);
  }

  lemma MoveKeepsHandlers(w: World, h: nat, ok: bool)
    requires h in w.handlers
    ensures |Move(w, h, ok).handlers| == |w.handlers|
  {
    assert Move(w, h, ok).handlers.Keys == w.handlers.Keys;
  }

  lemma MoveLowersRank(w: World, h: nat, ok: bool)
    requires h in w.handlers && !Finished(w.handlers[h])
    ensures Rank(Move(w, h, ok)) < Rank(w)
  {
    var after := Move(w, h, ok);
    MoveProgress(w, h, ok);
    MoveKeepsHandlers(w, h, ok);
    SlackBound(after);
    RankFalls(Left(w), Slack(w), Left(after), Slack(after), 9 * |w.handlers|);
  }

  /** Every event moves a handler that has not finished yet. */
  ghost predicate Effective(w: World, events: seq<Event>) {
    forall i :: 0 <= i < |events| ==>
      && events[i].Advance? && events[i].h in Exec(w, events[..i]).handlers
      && !Finished(Exec(w, events[..i]).handlers[events[i].h])
  }

  lemma EffectivePrefix(w: World, events: seq<Event>)
    requires events != [] && Effective(w, events)
    ensures Effective(w, events[..|events| - 1])
  {
    var before := events[..|events| - 1];
    forall i | 0 <= i < |before| ensures before[..i] == events[..i] {
    }
  }

  /** No livelock: whatever the scheduler does, the handlers at hand take at most `Rank`
      steps, so every reconciliation loop ends. */
  lemma {:induction false} NoLivelock(w: World, events: seq<Event>)
    requires Effective(w, events)
    ensures Rank(Exec(w, events)) + |events| <= Rank(w)
  {
    if events != [] {
      var last := |events| - 1;
      var before := events[..last];
      EffectivePrefix(w, events);
      NoLivelock(w, before);
      MoveLowersRank(Exec(w, before), events[last].h, events[last].ok);
    }
  }

  // ---- a counter reset while handlers are in flight ----

  /** `ResetAfterWarmup` stores zero; handlers in flight carry on. */
  function Reset(w: World): World {
    w.(received := 0, confirmed := 0, unreconciled := 0, acked := 0, errors := 0)
  }

  /** Recorded a failure, and may still take it back. */
  predicate Straggler(pc: Pc) {
    pc.Retrying? || pc.Loading? || pc.Swapping?
  }

  predicate GaveUp(pc: Pc) {
    pc.Erring? || pc.Failed?
  }

  /** The counter counts all failed handlers outside `gone`, whose failures were erased. */
  ghost predicate BalancedWithout(w: World, gone: set<nat>) {
    && w.unreconciled == Weight(w.handlers - gone, Owes)
    && (forall h :: h in gone ==> h in w.handlers && GaveUp(w.handlers[h]))
  }

  lemma NextKeepsBalanceWithout(w: World, gone: set<nat>, e: Event)
    requires BalancedWithout(w, gone)
    ensures BalancedWithout(Next(w, e), gone)
  {
    var after := Next(w, e);
    if e.h in after.handlers {
      var pc := after.handlers[e.h];
      if e.h in gone {
        assert after.handlers - gone == w.handlers - gone;
      } else {
        assert after.handlers - gone == (w.handlers - gone)[e.h := pc];
        WeightUpdate(w.handlers - gone, e.h, pc, Owes);
        if e.h in w.handlers && w.handlers[e.h].Loading? {
          WeightRemove(w.handlers - gone, e.h, Owes);
        }
      }
    }
  }

  lemma {:induction false} ExecKeepsBalanceWithout(w: World, gone: set<nat>, events: seq<Event>)
    requires BalancedWithout(w, gone)
    ensures BalancedWithout(Exec(w, events), gone)
  {
    if events != [] {
      ExecKeepsBalanceWithout(w, gone, events[..|events| - 1]);
      NextKeepsBalanceWithout(Exec(w, events[..|events| - 1]), gone, events[|events| - 1]);
    }
  }

  /** Handlers started after the reset that failed for good. */
  ghost function GenuineFailures(w: World, before: set<nat>): nat {
    Weight(w.handlers - before, Errored)
  }

  /** Every way the run can go on leaves the counter at or above the genuine failures. */
  ghost predicate NothingMasked(w: World) {
    forall events: seq<Event> ::
      GenuineFailures(Exec(Reset(w), events), w.handlers.Keys) <= Exec(Reset(w), events).unreconciled
  }

  lemma ResetWithoutStragglers(w: World)
    requires forall h :: h in w.handlers ==> !Straggler(w.handlers[h])
    ensures NothingMasked(w)
  {
    var gone := set h | h in w.handlers && GaveUp(w.handlers[h]);
    WeightZero(w.handlers - gone, Owes);
    forall events: seq<Event>
      ensures GenuineFailures(Exec(Reset(w), events), w.handlers.Keys) <= Exec(Reset(w), events).unreconciled
    {
      ExecKeepsBalanceWithout(Reset(w), gone, events);
      var after := Exec(Reset(w), events).handlers;
      WeightOrder(after - gone, Errored, Owes);
      WeightSubset(after, gone, w.handlers.Keys, Errored);
    }
  }

  lemma ExecStep(w: World, events: seq<Event>, e: Event)
    ensures Exec(w, events + [e]) == Next(Exec(w, events), e)
  {
    assert (events + [e])[..|events|] == events;
  }

  // A new message fails twice, from a counter at zero.
  lemma FailTwice(w: World, b: nat) returns (events: seq<Event>)
    requires b !in w.handlers && w.unreconciled == 0
    ensures Exec(w, events).handlers == w.handlers[b := Failed] && Exec(w, events).unreconciled == 1
  {
    events := [Deliver(b)];
    ExecStep(w, [], Deliver(b));
    var w1 := Exec(w, events);
    assert w1.handlers == w.handlers[b := Receiving];
    var e := Advance(b, false);
    ExecStep(w, events, e);
    events := events + [e];
    assert Exec(w, events).handlers == w.handlers[b := FirstAck];
    ExecStep(w, events, e);
    events := events + [e];
    assert Exec(w, events).handlers == w.handlers[b := Failing];
    ExecStep(w, events, e);
    events := events + [e];
    assert Exec(w, events).handlers == w.handlers[b := Retrying] && Exec(w, events).unreconciled == 1;
    ExecStep(w, events, e);
    events := events + [e];
    assert Exec(w, events).handlers == w.handlers[b := Erring];
    ExecStep(w, events, e);
    events := events + [e];
  }

  // A straggler whose retry succeeds takes a failure back, whoever recorded it.
  lemma {:induction false} TakeBack(w: World, events: seq<Event>, h: nat) returns (all: seq<Event>)
    requires var v := Exec(w, events); h in v.handlers && Straggler(v.handlers[h]) && v.unreconciled == 1
    ensures Exec(w, all).handlers == Exec(w, events).handlers[h := Confirming] && Exec(w, all).unreconciled == 0
    decreases Effort(1)(Exec(w, events).handlers[h])
  {
    var v := Exec(w, events);
    var e := Advance(h, true);
    ExecStep(w, events, e);
    all := events + [e];
    if v.handlers[h] != Swapping(1) {
      var next := all;
      all := TakeBack(w, next, h);
      assert Exec(w, next).handlers[h := Confirming] == v.handlers[h := Confirming];
    }
  }

  lemma FreshHandler(m: map<nat, Pc>) returns (b: nat)
    ensures b !in m
  {
    b := SomeFresh(m.Keys);
  }

  lemma {:induction false} SomeFresh(keys: set<nat>) returns (b: nat)
    ensures forall k :: k in keys ==> k < b
  {
    if keys == {} {
      b := 0;
    } else {
      var k :| k in keys;
      var c := SomeFresh(keys - {k});
      b := if k < c then c else k + 1;
      assert forall j :: j in keys ==> j == k || j in keys - {k};
    }
  }

  lemma ResetWithStraggler(w: World, h: nat)
    requires h in w.handlers && Straggler(w.handlers[h])
    ensures !NothingMasked(w)
  {
    var b := FreshHandler(w.handlers);
    var events := FailTwice(Reset(w), b);
    events := TakeBack(Reset(w), events, h);
    var after := Exec(Reset(w), events);
    assert after.handlers - w.handlers.Keys == map[b := Failed];
    WeightOne(map[b := Failed], Errored);
    assert GenuineFailures(after, w.handlers.Keys) == 1;
  }

  /** A warmup reset is harmless exactly when no handler is between its recorded failure
      and the outcome of its retry. Otherwise the run can go on so that a later message
      fails for good and the counter, which is the gate, still reads zero. */
  lemma ResetIsSafeIffNoStraggler(w: World)
    ensures NothingMasked(w) <==> forall h :: h in w.handlers ==> !Straggler(w.handlers[h])
  {
    if h :| h in w.handlers && Straggler(w.handlers[h]) {
      ResetWithStraggler(w, h);
    } else {
      ResetWithoutStragglers(w);
    }
  }
}
