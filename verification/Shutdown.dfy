/** The shutdown phases: producers stop, deliveries drain, the counters are captured, the
    consumers stop, the captured counters are judged. Worker counters keep moving at any
    time; three of them are written only by `StopConsumers`. */
module Shutdown {
  import opened Verdicts
  import opened Reports

  datatype Phase = Measuring | Draining | Captured | Judged

  datatype World = World(
    phase: Phase,
    live: map<Worker, Snapshot>,       // the workers' counters
    captured: map<Worker, Snapshot>,   // the frozen ones
    stopped: set<Worker>,
    early: map<Worker, nat>)           // what another run body charged before the capture

  datatype Event =
    | Traffic(worker: Worker, counters: Snapshot)     // any other counters move
    | Reset(worker: Worker)                           // ResetAfterWarmup
    | StopProducers
    | Capture
    | StopConsumers(worker: Worker, charged: nat)     // reconcile, charging what is missing
    | OtherStop(worker: Worker, charged: nat)         // another run body stops the shared consumers
    | Judge

  /** The counters recorded only while consumers stop. */
  predicate SameLate(a: Snapshot, b: Snapshot) {
    && a.deadLetterLost == b.deadLetterLost && a.interopDiverged == b.interopDiverged
    && a.inflightCapLost == b.inflightCapLost
  }

  /** Freezing folds a fan-out worker's tracker loss into its dropped deliveries. */
  function Freeze(w: Worker, s: Snapshot): Snapshot {
    if w.FanOut? then s.(fanoutDropped := s.fanoutDropped + s.lost, lost := 0) else s
  }

  function Charge(w: Worker, s: Snapshot, n: nat): Snapshot {
    match w
    case DeadLetter => s.(deadLetterLost := s.deadLetterLost + n)
    case CrossProtocol => s.(interopDiverged := s.interopDiverged + n)
    case InflightCap => s.(inflightCapLost := s.inflightCapLost + n)
    case _ => s
  }

  function Next(world: World, e: Event): World {
    match e
    case Traffic(w, s) =>
      if w in world.live && SameLate(s, world.live[w]) then world.(live := world.live[w := s]) else world
    case Reset(w) =>
      if w in world.live && world.phase == Measuring then
        world.(live := world.live[w := UNTOUCHED], early := world.early[w := 0])
      else world
    case StopProducers => if world.phase == Measuring then world.(phase := Draining) else world
    case Capture =>
      if world.phase == Draining then
        world.(phase := Captured, captured := map w | w in world.live :: Freeze(w, world.live[w]))
      else world
    case StopConsumers(w, n) =>
      if world.phase == Captured && w in world.live && w !in world.stopped then
        world.(live := world.live[w := Charge(w, world.live[w], n)], stopped := world.stopped + {w})
      else world
    case OtherStop(w, n) =>
      if w !in world.live || w !in world.early then world
      else
        world.(live := world.live[w := Charge(w, world.live[w], n)],
               early := if Open(world) then world.early[w := world.early[w] + n] else world.early)
    case Judge => if world.phase == Captured && world.stopped == world.live.Keys then world.(phase := Judged) else world
  }

  /** The counters are not captured yet. */
  predicate Open(world: World) {
    world.phase == Measuring || world.phase == Draining
  }

  /** A run starts with new workers, whose counters are all zero. */
  function Begin(workers: set<Worker>): World {
    World(Measuring, map w | w in workers :: UNTOUCHED, map[], {}, map w | w in workers :: 0)
  }

  function Exec(world: World, events: seq<Event>): World {
    if events == [] then world
    else Next(Exec(world, events[..|events| - 1]), events[|events| - 1])
  }

  // The late counters show what the other body charged, and nothing else.
  ghost predicate Shows(early: map<Worker, nat>, counters: map<Worker, Snapshot>) {
    forall w :: w in counters ==> w in early && SameLate(counters[w], Charge(w, UNTOUCHED, early[w]))
  }

  ghost predicate Inv(world: World) {
    && world.early.Keys == world.live.Keys
    && (Open(world) ==> Shows(world.early, world.live) && world.captured == map[])
    && Shows(world.early, world.captured)
  }

  lemma ChargeAdds(w: Worker, s: Snapshot, a: nat, n: nat)
    requires SameLate(s, Charge(w, UNTOUCHED, a))
    ensures SameLate(Charge(w, s, n), Charge(w, UNTOUCHED, a + n))
  {
  }

  lemma ShowsUpdate(early: map<Worker, nat>, counters: map<Worker, Snapshot>, w: Worker, n: nat, s: Snapshot)
    requires Shows(early, counters) && SameLate(s, Charge(w, UNTOUCHED, n))
    ensures Shows(early[w := n], counters[w := s])
  {
  }

  lemma FreezeKeepsLate(w: Worker, s: Snapshot)
    ensures SameLate(Freeze(w, s), s)
  {
  }

  lemma ShowsFrozen(early: map<Worker, nat>, live: map<Worker, Snapshot>)
    requires Shows(early, live)
    ensures Shows(early, map w | w in live :: Freeze(w, live[w]))
  {
    forall w | w in live ensures SameLate(Freeze(w, live[w]), Charge(w, UNTOUCHED, early[w])) {
      FreezeKeepsLate(w, live[w]);
    }
  }

  // One worker's counters and what was charged to it change together.
  lemma UpdateKeepsInv(world: World, w: Worker, n: nat, s: Snapshot)
    requires Inv(world) && Open(world) && w in world.live && SameLate(s, Charge(w, UNTOUCHED, n))
    ensures Inv(world.(live := world.live[w := s], early := world.early[w := n]))
  {
    ShowsUpdate(world.early, world.live, w, n, s);
  }

  lemma TrafficKeepsInv(world: World, w: Worker, s: Snapshot)
    requires Inv(world) && Open(world)
    ensures Inv(Next(world, Traffic(w, s)))
  {
    if w in world.live && SameLate(s, world.live[w]) {
      UpdateKeepsInv(world, w, world.early[w], s);
      assert world.early[w := world.early[w]] == world.early;
    }
  }

  lemma ResetKeepsInv(world: World, w: Worker)
    requires Inv(world) && Open(world)
    ensures Inv(Next(world, Reset(w)))
  {
    if w in world.live {
      ChargeNothing(w, UNTOUCHED);
      UpdateKeepsInv(world, w, 0, UNTOUCHED);
    }
  }

  lemma ChargeKeepsInv(world: World, w: Worker, n: nat, s: Snapshot)
    requires Inv(world) && Open(world) && w in world.live && s == Charge(w, world.live[w], n)
    ensures Inv(world.(live := world.live[w := s], early := world.early[w := world.early[w] + n]))
  {
    ChargeAdds(w, world.live[w], world.early[w], n);
    UpdateKeepsInv(world, w, world.early[w] + n, s);
  }

  lemma OtherStopCharges(world: World, w: Worker, n: nat)
    requires Open(world) && w in world.live && w in world.early
    ensures Next(world, OtherStop(w, n)) ==
            world.(live := world.live[w := Charge(w, world.live[w], n)],
                   early := world.early[w := world.early[w] + n])
  {
  }

  lemma OtherStopKeepsInv(world: World, w: Worker, n: nat)
    requires Inv(world) && Open(world)
    ensures Inv(Next(world, OtherStop(w, n)))
  {
    if w in world.live {
      OtherStopCharges(world, w, n);
      ChargeKeepsInv(world, w, n, Charge(w, world.live[w], n));
    }
  }

  lemma CaptureKeepsInv(world: World)
    requires Inv(world) && Open(world)
    ensures Inv(Next(world, Capture))
  {
    ShowsFrozen(world.early, world.live);
  }

  lemma OpenKeepsInv(world: World, e: Event)
    requires Inv(world) && Open(world)
    ensures Inv(Next(world, e))
  {
    match e
    case Traffic(w, s) => TrafficKeepsInv(world, w, s);
    case Reset(w) => ResetKeepsInv(world, w);
    case OtherStop(w, n) => OtherStopKeepsInv(world, w, n);
    case Capture => CaptureKeepsInv(world);
    case StopProducers =>
    case StopConsumers(_, _) =>
    case Judge =>
  }

  lemma ChargeNothing(w: Worker, s: Snapshot)
    ensures SameLate(s, Charge(w, s, 0))
  {
  }

  lemma ClosedKeepsInv(world: World, e: Event)
    requires Inv(world) && !Open(world)
    ensures Inv(Next(world, e))
  {
    var after := Next(world, e);
    assert !Open(after) && after.early == world.early && after.captured == world.captured;
    assert after.live.Keys == world.live.Keys;
  }

  lemma {:induction false} EveryRunKeepsInv(workers: set<Worker>, events: seq<Event>)
    ensures Inv(Exec(Begin(workers), events))
  {
    if events != [] {
      EveryRunKeepsInv(workers, events[..|events| - 1]);
      var world := Exec(Begin(workers), events[..|events| - 1]);
      if Open(world) {
        OpenKeepsInv(world, events[|events| - 1]);
      } else {
        ClosedKeepsInv(world, events[|events| - 1]);
      }
    }
  }

  /** In every run the dead-letter, interop and in-flight-cap loss gates fire exactly when
      another run body stopped the worker's consumers before the capture and charged
      something then; what the run's own shutdown finds comes too late. */
  lemma LateGatesFireIff(workers: set<Worker>, events: seq<Event>, cfg: Config, run: RunInfo, w: Worker)
    requires w in Exec(Begin(workers), events).captured
    ensures var world := Exec(Begin(workers), events);
            var s := world.captured[w];
            && w in world.early
            && (Fails(cfg, run, w, s, DeadLetterLoss) <==> w.DeadLetter? && world.early[w] > 0)
            && (Fails(cfg, run, w, s, Interop) <==> w.CrossProtocol? && world.early[w] > 0)
            && (Fails(cfg, run, w, s, InflightLoss) <==> w.InflightCap? && world.early[w] > 0)
  {
    EveryRunKeepsInv(workers, events);
    var world := Exec(Begin(workers), events);
    ChargedGates(cfg, run, w, world.captured[w], world.early[w]);
  }

  lemma ChargedGates(cfg: Config, run: RunInfo, w: Worker, s: Snapshot, n: nat)
    requires SameLate(s, Charge(w, UNTOUCHED, n))
    ensures Fails(cfg, run, w, s, DeadLetterLoss) <==> w.DeadLetter? && n > 0
    ensures Fails(cfg, run, w, s, Interop) <==> w.CrossProtocol? && n > 0
    ensures Fails(cfg, run, w, s, InflightLoss) <==> w.InflightCap? && n > 0
  {
  }

  lemma {:induction false} AloneChargesNothing(workers: set<Worker>, events: seq<Event>)
    requires forall e :: e in events ==> !e.OtherStop?
    ensures forall w :: w in Exec(Begin(workers), events).early ==> Exec(Begin(workers), events).early[w] == 0
  {
    if events != [] {
      AloneChargesNothing(workers, events[..|events| - 1]);
      assert !events[|events| - 1].OtherStop?;
    }
  }

  /** So in every run that has the engine to itself these gates never fire. */
  lemma LateGatesNeverFire(workers: set<Worker>, events: seq<Event>, cfg: Config, run: RunInfo, w: Worker)
    requires w in Exec(Begin(workers), events).captured && (forall e :: e in events ==> !e.OtherStop?)
    ensures var s := Exec(Begin(workers), events).captured[w];
            && !Fails(cfg, run, w, s, DeadLetterLoss)
            && !Fails(cfg, run, w, s, Interop)
            && !Fails(cfg, run, w, s, InflightLoss)
  {
    LateGatesFireIff(workers, events, cfg, run, w);
    AloneChargesNothing(workers, events);
  }

  /** Once captured, nothing that happens later changes what is judged. */
  lemma {:induction false} CaptureIsFinal(world: World, events: seq<Event>)
    requires world.phase == Captured || world.phase == Judged
    ensures Exec(world, events).captured == world.captured
    ensures Exec(world, events).phase == Captured || Exec(world, events).phase == Judged
  {
    if events != [] {
      CaptureIsFinal(world, events[..|events| - 1]);
    }
  }

  /** In every run the verdict comes only after the consumers of all workers have stopped, and
      no worker is added or lost on the way. */
  lemma {:induction false} JudgedAfterAllStopped(workers: set<Worker>, events: seq<Event>)
    ensures var world := Exec(Begin(workers), events);
            world.live.Keys == workers && (world.phase == Judged ==> world.stopped == workers)
  {
    if events != [] {
      JudgedAfterAllStopped(workers, events[..|events| - 1]);
      NextKeepsWorkers(Exec(Begin(workers), events[..|events| - 1]), events[|events| - 1]);
    }
  }

  lemma NextKeepsWorkers(world: World, e: Event)
    ensures Next(world, e).live.Keys == world.live.Keys
    ensures Next(world, e).phase == Judged ==>
              if world.phase == Judged then Next(world, e).stopped == world.stopped
              else Next(world, e).stopped == world.live.Keys
  {
  }

  /** A warmup reset, at any time before producers stop, takes the worker back to where it
      began and leaves all else alone. */
  lemma ResetStartsOver(workers: set<Worker>, events: seq<Event>, w: Worker)
    requires w in workers && Exec(Begin(workers), events).phase == Measuring
    ensures var before := Exec(Begin(workers), events);
            Next(before, Reset(w)) == before.(live := before.live[w := Begin(workers).live[w]],
                                              early := before.early[w := Begin(workers).early[w]])
  {
    JudgedAfterAllStopped(workers, events);
  }

  // ---- what is captured ----

  /** Freezing moves a fan-out worker's losses to its dropped deliveries and hides nothing. */
  predicate Honest(w: Worker, live: Snapshot, frozen: Snapshot) {
    && frozen.lost + frozen.fanoutDropped == live.lost + live.fanoutDropped
    && (if w == FanOut then frozen.lost == 0 else frozen.lost == live.lost)
    && frozen.(lost := live.lost, fanoutDropped := live.fanoutDropped) == live
  }

  lemma FreezeIsHonest(w: Worker, s: Snapshot)
    ensures Honest(w, s, Freeze(w, s))
  {
  }

  /** Event `i` is the capture, and what it captured is what was live then. */
  ghost predicate CapturedAt(workers: set<Worker>, events: seq<Event>, i: nat, captured: map<Worker, Snapshot>) {
    && i < |events| && events[i] == Capture
    && var before := Exec(Begin(workers), events[..i]);
       && before.phase == Draining && captured.Keys == before.live.Keys
       && forall w :: w in captured ==> Honest(w, before.live[w], captured[w])
  }

  lemma CaptureIsHonest(world: World)
    requires world.phase == Draining
    ensures var captured := Next(world, Capture).captured;
            captured.Keys == world.live.Keys && forall w :: w in captured ==> Honest(w, world.live[w], captured[w])
  {
    forall w | w in world.live ensures Honest(w, world.live[w], Freeze(w, world.live[w])) {
      FreezeIsHonest(w, world.live[w]);
    }
  }

  lemma OnlyCaptureCloses(world: World, e: Event)
    ensures !Open(world) ==> !Open(Next(world, e)) && Next(world, e).captured == world.captured
    ensures Open(world) && !Open(Next(world, e)) ==> e == Capture && world.phase == Draining
  {
  }

  /** In every run that has captured, the judged counters are the live ones at the moment of
      the capture, worker by worker and field by field, but for the fan-out worker's losses,
      which are all among its dropped deliveries. */
  lemma {:induction false} EveryCaptureIsHonest(workers: set<Worker>, events: seq<Event>) returns (i: nat)
    requires !Open(Exec(Begin(workers), events))
    ensures CapturedAt(workers, events, i, Exec(Begin(workers), events).captured)
  {
    i := |events| - 1;
    var before := Exec(Begin(workers), events[..i]);
    OnlyCaptureCloses(before, events[i]);
    if Open(before) {
      CaptureIsHonest(before);
    } else {
      var all := events[..i];
      i := EveryCaptureIsHonest(workers, all);
      assert all[..i] == events[..i];
    }
  }

  /** So a fan-out worker with any loss or dropped delivery at the capture fails the run, and
      its gate fires for no other reason. */
  lemma FanoutLossFails(workers: set<Worker>, events: seq<Event>, cfg: Config, run: RunInfo) returns (i: nat)
    requires !Open(Exec(Begin(workers), events)) && FanOut in Exec(Begin(workers), events).captured
    ensures i < |events| && FanOut in Exec(Begin(workers), events[..i]).live
    ensures var captured := Exec(Begin(workers), events).captured;
            var live := Exec(Begin(workers), events[..i]).live[FanOut];
            && (Fails(cfg, run, FanOut, captured[FanOut], FanoutDrop) <==> live.lost + live.fanoutDropped > 0)
            && (live.lost + live.fanoutDropped > 0 ==> EngineFailed(cfg, run, captured))
  {
    i := EveryCaptureIsHonest(workers, events);
    var captured := Exec(Begin(workers), events).captured;
    FanoutGate(cfg, run, Exec(Begin(workers), events[..i]).live[FanOut], captured);
  }

  lemma FanoutGate(cfg: Config, run: RunInfo, live: Snapshot, captured: map<Worker, Snapshot>)
    requires FanOut in captured && Honest(FanOut, live, captured[FanOut])
    ensures Fails(cfg, run, FanOut, captured[FanOut], FanoutDrop) <==> live.lost + live.fanoutDropped > 0
    ensures live.lost + live.fanoutDropped > 0 ==> EngineFailed(cfg, run, captured)
  {
  }

  /** The run is over, its dead-letter worker has lost messages, and its verdict passed. */
  ghost predicate LossUnnoticed(world: World, cfg: Config, run: RunInfo, n: nat) {
    && world.phase == Judged
    && DeadLetter in world.live && world.live[DeadLetter].deadLetterLost == n
    && EngineResult(cfg, run, world.captured) != FAILED
    && ReportResult(cfg, run, Summarise(cfg, world.captured)) != FAILED
  }

  // A run of one dead-letter worker that captures at once.
  lemma QuickCapture(events: seq<Event>)
    requires events == [StopProducers, Capture]
    ensures var clean := map[DeadLetter := UNTOUCHED];
            Exec(Begin({DeadLetter}), events) == World(Captured, clean, clean, {}, map[DeadLetter := 0])
  {
    var w0 := Begin({DeadLetter});
    var clean, none := map[DeadLetter := UNTOUCHED], map[DeadLetter := 0];
    assert Exec(w0, events[..0]) == w0 && w0.live == clean && w0.early == none;
    assert events[..1][..0] == events[..0];
    assert Exec(w0, events[..1]) == World(Draining, clean, map[], {}, none);
  }

  // Its shutdown charges `n` losses.
  lemma ChargedShutdown(n: nat, lost: Snapshot, events: seq<Event>)
    requires events == [StopProducers, Capture, StopConsumers(DeadLetter, n), Judge]
    requires lost == Charge(DeadLetter, UNTOUCHED, n)
    ensures var clean := map[DeadLetter := UNTOUCHED];
            Exec(Begin({DeadLetter}), events) ==
            World(Judged, map[DeadLetter := lost], clean, {DeadLetter}, map[DeadLetter := 0])
  {
    var clean := map[DeadLetter := UNTOUCHED];
    QuickCapture(events[..2]);
    assert events[..3][..2] == events[..2];
    assert Exec(Begin({DeadLetter}), events[..3]) ==
           World(Captured, map[DeadLetter := lost], clean, {DeadLetter}, map[DeadLetter := 0]);
  }

  /** Any number of dead-letter losses can go unnoticed, whatever the thresholds. */
  lemma DeadLetterLossGoesUnnoticed(cfg: Config, run: RunInfo, n: nat)
    ensures exists events :: LossUnnoticed(Exec(Begin({DeadLetter}), events), cfg, run, n)
  {
    var events := [StopProducers, Capture, StopConsumers(DeadLetter, n), Judge];
    ChargedShutdown(n, Charge(DeadLetter, UNTOUCHED, n), events);
    CleanRunPasses(cfg, run, map[DeadLetter := UNTOUCHED]);
    assert LossUnnoticed(Exec(Begin({DeadLetter}), events), cfg, run, n);
  }

  lemma CleanRunPasses(cfg: Config, run: RunInfo, snaps: map<Worker, Snapshot>)
    requires forall w :: w in snaps ==> snaps[w] == UNTOUCHED
    ensures !EngineFailed(cfg, run, snaps) && !ReportFailed(cfg, Summarise(cfg, snaps))
  {
  }
}
