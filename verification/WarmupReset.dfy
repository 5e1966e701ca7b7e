/** The warmup reset against the one-shot probes. A probe first marks that it ran and
    later counts its confirmation; the reset first zeroes the counter and later clears
    the mark. All four are separate atomic stores that interleave freely. */
module WarmupReset {

  datatype Stage = Marked | Confirmed

  datatype World = World(
    ran: bool,                   // the probe-ran flag
    count: nat,                  // the confirmed counter
    resetting: bool,             // a reset has zeroed the counter but not cleared the flag
    probes: map<nat, Stage>,     // every probe that has marked
    sinceClear: set<nat>)        // the probes that marked after the last clear

  datatype Event = Mark(p: nat) | Confirm(p: nat) | Zero | Clear

  function Next(w: World, e: Event): World {
    match e
    case Mark(p) =>
      if p in w.probes then w
      else w.(ran := true, probes := w.probes[p := Marked], sinceClear := w.sinceClear + {p})
    case Confirm(p) =>
      if p in w.probes && w.probes[p] == Marked then w.(count := w.count + 1, probes := w.probes[p := Confirmed])
      else w
    case Zero => if w.resetting then w else w.(count := 0, resetting := true)
    case Clear => if w.resetting then w.(ran := false, resetting := false, sinceClear := {}) else w
  }

  function Exec(events: seq<Event>): World {
    if events == [] then World(false, 0, false, map[], {})
    else Next(Exec(events[..|events| - 1]), events[|events| - 1])
  }

  // The flag is up because of a probe since the last clear, and a confirmation of such a
  // probe is still in the counter unless a new reset is under way.
  ghost predicate Inv(w: World) {
    && w.sinceClear <= w.probes.Keys
    && (w.ran <==> w.sinceClear != {})
    && (forall p :: p in w.sinceClear && w.probes[p] == Confirmed && !w.resetting ==> w.count > 0)
  }

  lemma {:induction false} EveryRunKeepsInv(events: seq<Event>)
    ensures Inv(Exec(events))
  {
    if events != [] {
      EveryRunKeepsInv(events[..|events| - 1]);
      var w := Exec(events[..|events| - 1]);
      var e := events[|events| - 1];
      if e.Mark? && e.p !in w.probes {
        assert e.p in Next(w, e).sinceClear;
      }
    }
  }

  /** A reset cannot by itself cause a "ran but never observed" failure: in every
      interleaving of any number of probes and resets, once no reset is half done, one probe
      that marked since the flag was last cleared and has confirmed is enough for a nonzero
      counter, whatever the other probes did. */
  lemma RanMeansObserved(events: seq<Event>, p: nat)
    requires var w := Exec(events);
             !w.resetting && p in w.sinceClear && p in w.probes && w.probes[p] == Confirmed
    ensures Exec(events).ran && Exec(events).count > 0
  {
    EveryRunKeepsInv(events);
  }

  // ---- what a reset leaves ----

  /** The probes that confirmed after they marked, at any time. */
  function ConfirmedBy(events: seq<Event>): set<nat> {
    if events == [] then {}
    else
      var before := events[..|events| - 1];
      var e := events[|events| - 1];
      ConfirmedBy(before) + if e.Confirm? && Mark(e.p) in before then {e.p} else {}
  }

  /** A reset has begun and not ended. */
  predicate MidReset(events: seq<Event>) {
    events != [] &&
    match events[|events| - 1]
    case Zero => true
    case Clear => false
    case _ => MidReset(events[..|events| - 1])
  }

  /** How many had confirmed when the last reset began. */
  function ConfirmedAtReset(events: seq<Event>): nat {
    if events == [] then 0
    else
      var before := events[..|events| - 1];
      if events[|events| - 1] == Zero && !MidReset(before) then |ConfirmedBy(before)| else ConfirmedAtReset(before)
  }

  lemma {:induction false} ProbesAreKnown(events: seq<Event>)
    ensures forall p :: p in Exec(events).probes <==> Mark(p) in events
    ensures forall p :: p in ConfirmedBy(events) <==> p in Exec(events).probes && Exec(events).probes[p] == Confirmed
    ensures Exec(events).resetting == MidReset(events)
  {
    if events != [] {
      var last := |events| - 1;
      var before := events[..last];
      assert events == before + [events[last]];
      ProbesAreKnown(before);
    }
  }

  /** In every interleaving the counter is exactly the confirmations since the last reset
      began: each probe counts once, none is lost, and a reset leaves nothing behind. */
  lemma {:induction false} CounterIsConfirmedSinceReset(events: seq<Event>)
    ensures Exec(events).count + ConfirmedAtReset(events) == |ConfirmedBy(events)|
  {
    if events != [] {
      var before := events[..|events| - 1];
      CounterIsConfirmedSinceReset(before);
      NextCounts(events);
    }
  }

  lemma NextCounts(events: seq<Event>)
    requires events != []
    ensures var before := events[..|events| - 1];
            if events[|events| - 1] == Zero && !MidReset(before) then Exec(events).count == 0
            else Exec(events).count - Exec(before).count == |ConfirmedBy(events)| - |ConfirmedBy(before)|
  {
    ProbesAreKnown(events[..|events| - 1]);
  }

  /** A reset that is over, with no probe active since it began, leaves counter and flag down. */
  lemma {:induction false} ResetLeavesNothing(events: seq<Event>, more: seq<Event>)
    requires !MidReset(events) && (forall i :: 0 <= i < |more| ==> more[i] == Clear)
    ensures var w := Exec(events + [Zero] + more);
            w.count == 0 && (w.resetting <==> more == []) && (more != [] ==> !w.ran)
  {
    var all := events + [Zero] + more;
    if more == [] {
      ProbesAreKnown(events);
      assert all[..|all| - 1] == events;
    } else {
      var before := more[..|more| - 1];
      ResetLeavesNothing(events, before);
      assert all[..|all| - 1] == events + [Zero] + before;
      assert all[|all| - 1] == more[|more| - 1] == Clear;
    }
  }
}
