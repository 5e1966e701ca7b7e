/** The nack_redelivery worker. Deliveries run concurrently; the decision to nack is made
    under the worker's mutex, so it is one step, and everything else is an atomic
    operation or a call to the broker. */
module NackRedelivery {
  import opened Weights

  type Key = nat  // a (producer, sequence) message key

  datatype NackState = Nacked | Redelivered

  datatype Pc =
    | Receiving(tracked: bool, key: Key)  // count the message as received
    | Deciding(key: Key)                  // the mutex-protected decision
    | Acking(key: Key, recovered: bool)   // ack and count it
    | Counting(key: Key)                  // count the confirmed redelivery
    | Nacking(key: Key)                   // nack
    | AckDone
    | RecoverDone(key: Key)
    | NackDone(key: Key)

  datatype World = World(
    handlers: map<nat, Pc>,
    nacked: map<Key, NackState>,
    received: nat,
    acked: nat,
    redelivered: nat,
    nacks: nat)          // nacks sent to the broker

  datatype Event = Deliver(h: nat, tracked: bool, key: Key) | Advance(h: nat, draw: bool)

  /** One step of delivery `h`; `draw` is the random draw of a first receipt. */
  function Move(w: World, h: nat, draw: bool): World
    requires h in w.handlers
  {
    match w.handlers[h]
    case Receiving(tracked, k) =>
      w.(handlers := w.handlers[h := if tracked then Deciding(k) else Acking(k, false)], received := w.received + 1)
    case Deciding(k) =>
      if k in w.nacked then
        if w.nacked[k] == Nacked then
          w.(nacked := w.nacked[k := Redelivered], handlers := w.handlers[h := Acking(k, true)])
        else w.(handlers := w.handlers[h := Acking(k, false)])
      else if draw then
        w.(nacked := w.nacked[k := Nacked], handlers := w.handlers[h := Nacking(k)])
      else w.(handlers := w.handlers[h := Acking(k, false)])
    case Acking(k, recovered) =>
      w.(handlers := w.handlers[h := if recovered then Counting(k) else AckDone], acked := w.acked + 1)
    case Counting(k) => w.(handlers := w.handlers[h := RecoverDone(k)], redelivered := w.redelivered + 1)
    case Nacking(k) => w.(handlers := w.handlers[h := NackDone(k)], nacks := w.nacks + 1)
    case AckDone => w
    case RecoverDone(_) => w
    case NackDone(_) => w
  }

  function Next(w: World, e: Event): World {
    match e
    case Deliver(h, tracked, k) => if h in w.handlers then w else w.(handlers := w.handlers[h := Receiving(tracked, k)])
    case Advance(h, draw) => if h in w.handlers then Move(w, h, draw) else w
  }

  function Exec(events: seq<Event>): World {
    if events == [] then World(map[], map[], 0, 0, 0, 0)
    else Next(Exec(events[..|events| - 1]), events[|events| - 1])
  }

  // ---- what the counters and the map count ----

  function Received(pc: Pc): nat { if pc.Receiving? then 0 else 1 }
  function Acked(pc: Pc): nat { if pc.Counting? || pc.AckDone? || pc.RecoverDone? then 1 else 0 }
  function Recovered(pc: Pc): nat { if pc.RecoverDone? then 1 else 0 }
  function NackSent(pc: Pc): nat { if pc.NackDone? then 1 else 0 }

  /** Decided to nack key `k`. */
  function NackOf(k: Key): Pc -> nat {
    (pc: Pc) => if (pc.Nacking? || pc.NackDone?) && pc.key == k then 1 else 0
  }

  /** Recognised the redelivery of key `k`. */
  function RecoveryOf(k: Key): Pc -> nat {
    (pc: Pc) => if ((pc.Acking? && pc.recovered) || pc.Counting? || pc.RecoverDone?) && pc.key == k then 1 else 0
  }

  function AnyNack(pc: Pc): nat { if pc.Nacking? || pc.NackDone? then 1 else 0 }
  function AnyRecovery(pc: Pc): nat {
    if (pc.Acking? && pc.recovered) || pc.Counting? || pc.RecoverDone? then 1 else 0
  }

  function Terminal(m: map<Key, NackState>): set<Key> {
    set k | k in m && m[k] == Redelivered
  }

  ghost predicate CountersAgree(w: World) {
    && w.received == Weight(w.handlers, Received)
    && w.acked == Weight(w.handlers, Acked)
    && w.redelivered == Weight(w.handlers, Recovered)
    && w.nacks == Weight(w.handlers, NackSent)
  }

  ghost predicate MapAgrees(w: World) {
    && |w.nacked| == Weight(w.handlers, AnyNack)
    && |Terminal(w.nacked)| == Weight(w.handlers, AnyRecovery)
  }

  ghost predicate KeyAgrees(w: World, k: Key) {
    && Weight(w.handlers, NackOf(k)) == (if k in w.nacked then 1 else 0)
    && Weight(w.handlers, RecoveryOf(k)) == (if k in w.nacked && w.nacked[k] == Redelivered then 1 else 0)
  }

  lemma MapGrows(m: map<Key, NackState>, k: Key)
    requires k !in m
    ensures |m[k := Nacked]| == |m| + 1 && Terminal(m[k := Nacked]) == Terminal(m)
  {
    assert m[k := Nacked].Keys == m.Keys + {k};
  }

  lemma MapRecovers(m: map<Key, NackState>, k: Key)
    requires k in m && m[k] == Nacked
    ensures |m[k := Redelivered]| == |m| && |Terminal(m[k := Redelivered])| == |Terminal(m)| + 1
  {
    assert m[k := Redelivered].Keys == m.Keys;
    assert Terminal(m[k := Redelivered]) == Terminal(m) + {k};
  }

  /** The handler's place before and after an event; a new delivery counts as unreceived. */
  function PcOf(w: World, e: Event): Pc {
    if e.h in w.handlers then w.handlers[e.h] else Receiving(false, 0)
  }

  // Outside the decision the map stays, and so does what the handler has decided.
  lemma OnlyDecidingDecides(w: World, e: Event, k: Key)
    requires !PcOf(w, e).Deciding?
    ensures var was, pc := PcOf(w, e), PcOf(Next(w, e), e);
            && Next(w, e).nacked == w.nacked
            && AnyNack(pc) == AnyNack(was) && AnyRecovery(pc) == AnyRecovery(was)
            && NackOf(k)(pc) == NackOf(k)(was) && RecoveryOf(k)(pc) == RecoveryOf(k)(was)
  {
  }

  lemma NextWeight(w: World, e: Event, f: Pc -> nat)
    requires f(Receiving(false, 0)) == 0 && (forall t, k :: f(Receiving(t, k)) == 0)
    ensures Weight(Next(w, e).handlers, f) + f(PcOf(w, e)) == Weight(w.handlers, f) + f(PcOf(Next(w, e), e))
  {
    var after := Next(w, e).handlers;
    if e.h in after {
      WeightUpdate(w.handlers, e.h, after[e.h], f);
      assert after == w.handlers[e.h := after[e.h]];
    }
  }

  lemma NextKeepsCounters(w: World, e: Event)
    requires CountersAgree(w)
    ensures CountersAgree(Next(w, e))
  {
    NextCounts(w, e);
    NextWeights(w, e);
  }

  lemma NextWeights(w: World, e: Event)
    ensures var m, m' := w.handlers, Next(w, e).handlers;
            var was, pc := PcOf(w, e), PcOf(Next(w, e), e);
            && Weight(m', Received) == Weight(m, Received) + Received(pc) - Received(was)
            && Weight(m', Acked) == Weight(m, Acked) + Acked(pc) - Acked(was)
            && Weight(m', Recovered) == Weight(m, Recovered) + Recovered(pc) - Recovered(was)
            && Weight(m', NackSent) == Weight(m, NackSent) + NackSent(pc) - NackSent(was)
  {
    NextWeight(w, e, Received);
    NextWeight(w, e, Acked);
    NextWeight(w, e, Recovered);
    NextWeight(w, e, NackSent);
  }

  lemma NextCounts(w: World, e: Event)
    ensures var after := Next(w, e);
            var was, pc := PcOf(w, e), PcOf(after, e);
            && after.received == w.received + Received(pc) - Received(was)
            && after.acked == w.acked + Acked(pc) - Acked(was)
            && after.redelivered == w.redelivered + Recovered(pc) - Recovered(was)
            && after.nacks == w.nacks + NackSent(pc) - NackSent(was)
  {
  }

  // The map and its terminal part grow as the handler decides.
  lemma NextGrowsMap(w: World, e: Event)
    ensures var after := Next(w, e).nacked;
            var was, pc := PcOf(w, e), PcOf(Next(w, e), e);
            && |after| == |w.nacked| + AnyNack(pc) - AnyNack(was)
            && |Terminal(after)| == |Terminal(w.nacked)| + AnyRecovery(pc) - AnyRecovery(was)
  {
    var pc := PcOf(w, e);
    if !pc.Deciding? {
      OnlyDecidingDecides(w, e, 0);
    } else if e.Advance? {
      if pc.key !in w.nacked {
        MapGrows(w.nacked, pc.key);
      } else if w.nacked[pc.key] == Nacked {
        MapRecovers(w.nacked, pc.key);
      }
    }
  }

  lemma NextKeepsMap(w: World, e: Event)
    requires MapAgrees(w)
    ensures MapAgrees(Next(w, e))
  {
    NextGrowsMap(w, e);
    NextWeight(w, e, AnyNack);
    NextWeight(w, e, AnyRecovery);
  }

  lemma NextKeepsKey(w: World, e: Event, k: Key)
    requires KeyAgrees(w, k)
    ensures KeyAgrees(Next(w, e), k)
  {
    NextWeight(w, e, NackOf(k));
    NextWeight(w, e, RecoveryOf(k));
    if !PcOf(w, e).Deciding? {
      OnlyDecidingDecides(w, e, k);
    }
  }

  lemma {:induction false} EveryRunAgrees(events: seq<Event>, k: Key)
    ensures CountersAgree(Exec(events)) && MapAgrees(Exec(events)) && KeyAgrees(Exec(events), k)
  {
    if events != [] {
      var w := Exec(events[..|events| - 1]);
      EveryRunAgrees(events[..|events| - 1], k);
      NextKeepsCounters(w, events[|events| - 1]);
      NextKeepsMap(w, events[|events| - 1]);
      NextKeepsKey(w, events[|events| - 1], k);
    }
  }

  /** Two deliveries never nack the same key, and never both recover it. */
  lemma NackedAtMostOnce(events: seq<Event>, a: nat, b: nat, k: Key)
    requires var hs := Exec(events).handlers; a in hs && b in hs && a != b
    ensures var hs := Exec(events).handlers;
            && !(NackOf(k)(hs[a]) == 1 && NackOf(k)(hs[b]) == 1)
            && !(RecoveryOf(k)(hs[a]) == 1 && RecoveryOf(k)(hs[b]) == 1)
  {
    var hs := Exec(events).handlers;
    EveryRunAgrees(events, k);
    WeightRemove(hs, a, NackOf(k));
    WeightRemove(hs - {a}, b, NackOf(k));
    WeightRemove(hs, a, RecoveryOf(k));
    WeightRemove(hs - {a}, b, RecoveryOf(k));
  }

  /** Where a key stands: absent, nacked, redelivered. */
  function Progress(m: map<Key, NackState>, k: Key): nat {
    if k !in m then 0 else if m[k] == Nacked then 1 else 2
  }

  lemma NextMovesForward(w: World, e: Event, k: Key)
    ensures var was, now := Progress(w.nacked, k), Progress(Next(w, e).nacked, k);
            was <= now <= was + 1
  {
  }

  lemma ExecLast(events: seq<Event>, more: seq<Event>)
    requires more != []
    ensures Exec(events + more) == Next(Exec(events + more[..|more| - 1]), more[|more| - 1])
  {
    assert (events + more)[..|events + more| - 1] == events + more[..|more| - 1];
  }

  /** Over every run a key moves only from absent to nacked to redelivered. */
  lemma {:induction false} KeyMovesForward(events: seq<Event>, more: seq<Event>, k: Key)
    ensures Progress(Exec(events).nacked, k) <= Progress(Exec(events + more).nacked, k)
  {
    if more == [] {
      assert events + more == events;
    } else {
      var before := more[..|more| - 1];
      KeyMovesForward(events, before, k);
      ExecLast(events, more);
      NextMovesForward(Exec(events + before), more[|more| - 1], k);
    }
  }

  /** And it never skips the middle: a key that has been redelivered was nacked before. */
  lemma {:induction false} RedeliveredWasNacked(events: seq<Event>, k: Key) returns (i: nat)
    requires Progress(Exec(events).nacked, k) == 2
    ensures i < |events| && Progress(Exec(events[..i]).nacked, k) == 1
  {
    i := |events| - 1;
    var before := events[..i];
    NextMovesForward(Exec(before), events[i], k);
    if Progress(Exec(before).nacked, k) == 2 {
      i := RedeliveredWasNacked(before, k);
      assert before[..i] == events[..i];
    }
  }

  ghost predicate Quiet(w: World) {
    forall h :: h in w.handlers ==> w.handlers[h].AckDone? || w.handlers[h].RecoverDone? || w.handlers[h].NackDone?
  }

  lemma QuietWorld(w: World)
    requires Quiet(w) && CountersAgree(w) && MapAgrees(w)
    ensures w.nacks == |w.nacked| && w.redelivered == |Terminal(w.nacked)| && w.received == w.acked + w.nacks
  {
    QuietPairs(w.handlers);
    WeightSum(w.handlers, Acked, NackSent, Received);
  }

  lemma QuietPairs(m: map<nat, Pc>)
    requires forall h :: h in m ==> m[h].AckDone? || m[h].RecoverDone? || m[h].NackDone?
    ensures Weight(m, NackSent) == Weight(m, AnyNack) && Weight(m, Recovered) == Weight(m, AnyRecovery)
  {
    WeightSame(m, NackSent, AnyNack);
    WeightSame(m, Recovered, AnyRecovery);
  }

  /** Once no delivery is mid-flight: nacks sent are the keys in the map, confirmed
      redeliveries the keys in the terminal state, and every receipt was acked or nacked. */
  lemma QuietAccounting(events: seq<Event>)
    requires Quiet(Exec(events))
    ensures var w := Exec(events);
            && w.nacks == |w.nacked|
            && w.redelivered == |Terminal(w.nacked)|
            && w.received == w.acked + w.nacks
  {
    EveryRunAgrees(events, 0);
    QuietWorld(Exec(events));
  }

  // ---- the draws ----

  datatype Delivery = NotYet | Of(tracked: bool, key: Key)

  /** What handler `h` was started with. */
  function DeliveryOf(events: seq<Event>, h: nat): Delivery {
    if events == [] then NotYet
    else
      var before := DeliveryOf(events[..|events| - 1], h);
      match events[|events| - 1]
      case Deliver(g, tracked, k) => if g == h && before.NotYet? then Of(tracked, k) else before
      case Advance(_, _) => before
  }

  /** The draws handed to handler `h`, one for each step it was given; its second step, if the
      message is tracked, is the one that decides. */
  function Steps(events: seq<Event>, h: nat): seq<bool> {
    if events == [] then []
    else
      var before := events[..|events| - 1];
      match events[|events| - 1]
      case Deliver(_, _, _) => Steps(before, h)
      case Advance(g, draw) =>
        if g == h && DeliveryOf(before, h).Of? then Steps(before, h) + [draw] else Steps(before, h)
  }

  /** A receipt of tracked message `k` by handler `h` drew a nack. */
  ghost predicate Drew(events: seq<Event>, h: nat, k: Key) {
    DeliveryOf(events, h) == Of(true, k) && |Steps(events, h)| >= 2 && Steps(events, h)[1]
  }

  /** How far a handler is, from its delivery and the number of its steps. */
  ghost predicate Follows(pc: Pc, d: Delivery, steps: seq<bool>) {
    && d.Of?
    && (pc.Receiving? <==> |steps| == 0)
    && (pc.Receiving? ==> pc == Receiving(d.tracked, d.key))
    && (pc.Deciding? <==> |steps| == 1 && d.tracked)
    && (pc.Deciding? ==> pc.key == d.key)
  }

  lemma MoveFollows(w: World, h: nat, draw: bool, d: Delivery, steps: seq<bool>)
    requires h in w.handlers && Follows(w.handlers[h], d, steps)
    ensures h in Move(w, h, draw).handlers && Follows(Move(w, h, draw).handlers[h], d, steps + [draw])
  {
  }

  lemma {:induction false} HandlersFollow(events: seq<Event>, h: nat)
    ensures h in Exec(events).handlers <==> DeliveryOf(events, h).Of?
    ensures h in Exec(events).handlers ==> Follows(Exec(events).handlers[h], DeliveryOf(events, h), Steps(events, h))
    ensures DeliveryOf(events, h).NotYet? ==> Steps(events, h) == []
  {
    if events != [] {
      var last := |events| - 1;
      var before := events[..last];
      var w := Exec(before);
      HandlersFollow(before, h);
      match events[last]
      case Deliver(_, _, _) =>
      case Advance(g, draw) =>
        if g == h && h in w.handlers {
          MoveFollows(w, h, draw, DeliveryOf(before, h), Steps(before, h));
        }
    }
  }

  lemma DrewStays(events: seq<Event>, h: nat, k: Key)
    requires events != [] && Drew(events[..|events| - 1], h, k)
    ensures Drew(events, h, k)
  {
    var steps := Steps(events[..|events| - 1], h);
    assert Steps(events, h) == steps || (|Steps(events, h)| == |steps| + 1 && Steps(events, h)[..|steps|] == steps);
  }

  // A draw enters the key; a key enters by a draw.
  lemma DecisionEnters(events: seq<Event>, k: Key)
    requires events != []
    ensures var before := events[..|events| - 1];
            var h := events[|events| - 1].h;
            && (Drew(events, h, k) ==> Drew(before, h, k) || k in Exec(events).nacked)
            && (k in Exec(events).nacked && k !in Exec(before).nacked ==> Drew(events, h, k))
  {
    var before := events[..|events| - 1];
    HandlersFollow(before, events[|events| - 1].h);
  }

  /** In every run the keys in the map are exactly the tracked messages of which some receipt
      drew a nack: no draw is dropped, and nothing is nacked without one. */
  lemma {:induction false} NackedIffDrawn(events: seq<Event>, k: Key)
    ensures k in Exec(events).nacked <==> exists h :: Drew(events, h, k)
  {
    if events != [] {
      var before := events[..|events| - 1];
      NackedIffDrawn(before, k);
      NextMovesForward(Exec(before), events[|events| - 1], k);
      DecisionEnters(events, k);
      if h :| Drew(before, h, k) {
        DrewStays(events, h, k);
      }
      forall h | Drew(events, h, k) ensures k in Exec(events).nacked {
        if h != events[|events| - 1].h {
          OthersDrewBefore(events, h, k);
        }
      }
    }
  }

  lemma OthersDrewBefore(events: seq<Event>, h: nat, k: Key)
    requires events != [] && Drew(events, h, k) && h != events[|events| - 1].h
    ensures Drew(events[..|events| - 1], h, k)
  {
  }
}
