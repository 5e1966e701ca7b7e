/** The whole tracker: a map from producer to tracking state. */
module TrackerModel {
  import opened SequenceModel

  type State = map<string, Producer>

  function RecordIn(size: nat, m: State, id: string, n: nat): State {
    m[id := if id in m then Step(size, m[id], n) else First(n)]
  }

  function ReportedIn(m: State): State {
    map id | id in m :: Reported(m[id])
  }

  function Deltas(m: State): map<string, nat> {
    DeltasExcept(m, {})
  }

  /** The deltas of the producers outside `todo`. */
  function DeltasExcept(m: State, todo: set<string>): map<string, nat> {
    map id | id in m && id !in todo && Delta(m[id]) > 0 :: Delta(m[id])
  }

  lemma DeltasStep(m: State, todo: set<string>, id: string)
    requires id in m && id in todo
    ensures DeltasExcept(m, todo - {id}) ==
            if Delta(m[id]) > 0 then DeltasExcept(m, todo)[id := Delta(m[id])] else DeltasExcept(m, todo)
  {
  }

  datatype Counter = Received | Duplicates | OutOfOrder | ConfirmedLost

  function Read(c: Counter, p: Producer): nat {
    match c
    case Received => p.received
    case Duplicates => p.duplicates
    case OutOfOrder => p.outOfOrder
    case ConfirmedLost => p.confirmedLost
  }

  function Reader(c: Counter): Producer -> nat {
    (p: Producer) => Read(c, p)
  }

  // ---- interleaved logs ----

  datatype Call = Record(id: string, n: nat) | DetectGaps | Reset

  function Apply(size: nat, m: State, call: Call): State {
    match call
    case Record(id, n) => RecordIn(size, m, id, n)
    case DetectGaps => ReportedIn(m)
    case Reset => map[]
  }

  function Replay(size: nat, log: seq<Call>): State {
    if log == [] then map[]
    else Apply(size, Replay(size, log[..|log| - 1]), log[|log| - 1])
  }

  /** The sequences of one producer since the last `Reset`, in order of arrival. */
  function Arrivals(log: seq<Call>, id: string): seq<nat> {
    if log == [] then []
    else
      var before := Arrivals(log[..|log| - 1], id);
      match log[|log| - 1]
      case Record(other, n) => if other == id then before + [n] else before
      case DetectGaps => before
      case Reset => []
  }

  lemma StepIgnoresReported(size: nat, p: Producer, n: nat, reported: nat)
    ensures Step(size, p.(lastReportedLost := reported), n) == Step(size, p, n).(lastReportedLost := reported)
  {
  }

  /** Producers do not interfere: in any interleaving of calls, the state of a producer is
      the one its own arrivals since the last reset produce, apart from what was reported. */
  lemma {:induction false} ProducersAreIndependent(size: nat, log: seq<Call>, id: string)
    ensures id in Replay(size, log) <==> Arrivals(log, id) != []
    ensures id in Replay(size, log) ==> Replay(size, log)[id].(lastReportedLost := 0) == Run(size, Arrivals(log, id))
  {
    if log != [] {
      var before := log[..|log| - 1];
      ProducersAreIndependent(size, before, id);
      match log[|log| - 1]
      case Record(other, n) =>
        if other == id {
          var own := Arrivals(before, id);
          assert (own + [n])[..|own|] == own;
          if own != [] {
            StepIgnoresReported(size, Replay(size, before)[id], n, 0);
          }
        }
      case DetectGaps =>
      case Reset =>
    }
  }

  // ---- what `DetectGaps` streams ----

  /** The loss of a producer after a log, from its own arrivals since the last reset. */
  function LossNow(size: nat, log: seq<Call>, id: string): nat {
    var own := Arrivals(log, id);
    if own == [] then 0 else Run(size, own).confirmedLost
  }

  /** The loss of a producer when `DetectGaps` was last called; none before the first call or
      since a reset. */
  function LossAtLastCall(size: nat, log: seq<Call>, id: string): nat {
    if log == [] then 0
    else
      var before := log[..|log| - 1];
      match log[|log| - 1]
      case Record(_, _) => LossAtLastCall(size, before, id)
      case DetectGaps => LossNow(size, before, id)
      case Reset => 0
  }

  lemma StepKeepsReported(size: nat, p: Producer, n: nat)
    ensures Step(size, p, n).lastReportedLost == p.lastReportedLost
  {
  }

  lemma LossNowIsConfirmed(size: nat, log: seq<Call>, id: string)
    ensures LossNow(size, log, id) == if id in Replay(size, log) then Replay(size, log)[id].confirmedLost else 0
  {
    ProducersAreIndependent(size, log, id);
  }

  /** What the tracker remembers as reported is, after every log, the loss at the last call. */
  lemma {:induction false} RemembersLossAtLastCall(size: nat, log: seq<Call>, id: string)
    ensures var m := Replay(size, log);
            LossAtLastCall(size, log, id) == if id in m then m[id].lastReportedLost else 0
  {
    if log != [] {
      var before := log[..|log| - 1];
      var m := Replay(size, before);
      RemembersLossAtLastCall(size, before, id);
      match log[|log| - 1]
      case Record(other, n) => if other == id && id in m { StepKeepsReported(size, m[id], n); }
      case DetectGaps => LossNowIsConfirmed(size, before, id);
      case Reset =>
    }
  }

  /** After every log `DetectGaps` answers, for exactly the producers whose loss has risen
      since the last call, by how much it has risen. */
  lemma DetectGapsAnswersTheRise(size: nat, log: seq<Call>, id: string)
    ensures var answer := Deltas(Replay(size, log));
            var was, now := LossAtLastCall(size, log, id), LossNow(size, log, id);
            (id in answer <==> now > was) && (id in answer ==> answer[id] == now - was)
  {
    RemembersLossAtLastCall(size, log, id);
    LossNowIsConfirmed(size, log, id);
  }

  /** All that `DetectGaps` has answered for a producer. */
  function Streamed(size: nat, log: seq<Call>, id: string): nat {
    if log == [] then 0
    else
      var before := log[..|log| - 1];
      var answer := Deltas(Replay(size, before));
      Streamed(size, before, id) + if log[|log| - 1].DetectGaps? && id in answer then answer[id] else 0
  }

  /** By how much its loss fell between consecutive calls; a reset drops it to nothing. */
  function Falls(size: nat, log: seq<Call>, id: string): nat {
    if log == [] then 0
    else
      var before := log[..|log| - 1];
      var was, now := LossAtLastCall(size, before, id), LossNow(size, before, id);
      Falls(size, before, id) +
      match log[|log| - 1]
      case Record(_, _) => 0
      case DetectGaps => if now < was then was - now else 0
      case Reset => was
  }

  /** The streamed deltas telescope over every log: together they are the loss at the last
      call plus all the falls, so the live metric never falls below that loss. */
  lemma {:induction false} StreamTelescopes(size: nat, log: seq<Call>, id: string)
    ensures Streamed(size, log, id) == LossAtLastCall(size, log, id) + Falls(size, log, id)
  {
    if log != [] {
      var before := log[..|log| - 1];
      StreamTelescopes(size, before, id);
      DetectGapsAnswersTheRise(size, before, id);
    }
  }
}

module Trackers {
  import opened Words
  import opened Weights
  import opened SequenceModel
  import opened TrackerModel
  import opened Tracker

  ghost function Objects(m: map<string, ProducerState>): set<object> {
    (set id | id in m :: m[id] as object) + (set id | id in m :: m[id].window as object)
  }

  lemma ObjectsInsert(m: map<string, ProducerState>, id: string, ps: ProducerState)
    ensures Objects(m[id := ps]) <= Objects(m) + {ps, ps.window}
  {
  }

  class SequenceTracker {
    const reorderWindow: nat
    var producers: map<string, ProducerState>

    ghost function Footprint(): set<object>
      reads this
    {
      Objects(producers)
    }

    ghost predicate Valid()
      reads this, Footprint()
    {
      && reorderWindow >= 1
      && (forall id :: id in producers ==> producers[id].Valid(reorderWindow))
      && (forall a, b :: a in producers && b in producers && a != b ==>
            producers[a] != producers[b] && producers[a].window != producers[b].window)
    }

    ghost function View(): State
      reads this, Footprint()
    {
      map id | id in producers :: producers[id].View()
    }

    constructor (size: nat)
      requires size >= 1
      ensures Valid() && View() == map[] && reorderWindow == size && Footprint() == {}
    {
      reorderWindow := size;
      producers := map[];
    }

    // Adds a state that shares nothing with the others.
    method Insert(id: string, ps: ProducerState)
      requires Valid() && id !in producers && ps.Valid(reorderWindow)
      requires ps !in Footprint() && ps.window !in Footprint()
      modifies this
      ensures Valid() && View() == old(View())[id := old(ps.View())]
      ensures producers == old(producers)[id := ps]
    {
      ghost var m := View();
      assert forall other :: other in producers ==>
          producers[other] in Footprint() && producers[other].window in Footprint();
      producers := producers[id := ps];
      assert View() == m[id := ps.View()];
    }

    method RecordFirst(id: string, n: Word)
      requires Valid() && id !in producers
      modifies this
      ensures Valid() && View() == old(View())[id := First(n)] && fresh(Footprint() - old(Footprint()))
    {
      ghost var m := View();
      var ps := new ProducerState(reorderWindow, n);
      assert View() == m;
      ObjectsInsert(producers, id, ps);
      Insert(id, ps);
    }

    method RecordKnown(id: string, n: Word) returns (isDuplicate: bool, isOutOfOrder: bool)
      requires Valid() && id in producers
      modifies producers[id], producers[id].window
      ensures Valid() && View() == old(View())[id := Step(reorderWindow, old(View())[id], n)]
      ensures isDuplicate <==> Classify(reorderWindow, old(View())[id], n) == Duplicate
      ensures isOutOfOrder <==> n < old(View())[id].lastSeen
    {
      ghost var m := View();
      var ps := producers[id];
      isDuplicate, isOutOfOrder := ps.Record(reorderWindow, n);
      Recombine(m, id);
    }

    lemma Recombine(m: State, id: string)
      requires id in producers && m.Keys == producers.Keys && OthersAre(m, id)
      ensures View() == m[id := producers[id].View()]
    {
    }

    // Every producer but `id` is valid and as in `m`.
    ghost predicate OthersAre(m: State, id: string)
      reads this, Footprint()
    {
      forall other :: other in producers && other != id ==>
        other in m && producers[other].Valid(reorderWindow) && producers[other].View() == m[other]
    }

    /** Only the named producer's objects change. */
    method Record(id: string, n: Word) returns (isDuplicate: bool, isOutOfOrder: bool)
      requires Valid()
      modifies this, if id in producers then {producers[id] as object, producers[id].window} else {}
      ensures Valid() && View() == RecordIn(reorderWindow, old(View()), id, n)
      ensures fresh(Footprint() - old(Footprint()))
      ensures isDuplicate <==> id in old(View()) && Classify(reorderWindow, old(View())[id], n) == Duplicate
      ensures isOutOfOrder <==> id in old(View()) && n < old(View())[id].lastSeen
    {
      if id !in producers {
        RecordFirst(id, n);
        return false, false;
      }
      isDuplicate, isOutOfOrder := RecordKnown(id, n);
    }

    /** Makes one call. New objects are all it adds to the footprint. */
    method Make(call: Call)
      requires Valid() && (call.Record? ==> call.n < LIMIT)
      modifies this, Footprint()
      ensures Valid() && View() == Apply(reorderWindow, old(View()), call)
      ensures fresh(Footprint() - old(Footprint()))
    {
      match call
      case Record(id, n) => var _, _ := Record(id, n);
      case DetectGaps => var _ := DetectGaps();
      case Reset => Reset();
    }

    /** Drives a new tracker through a whole log of calls: what is proved about `Replay` is
        true of the object. */
    static method Drive(size: nat, log: seq<Call>) returns (t: SequenceTracker)
      requires size >= 1 && (forall i :: 0 <= i < |log| && log[i].Record? ==> log[i].n < LIMIT)
      ensures fresh(t) && t.Valid() && t.reorderWindow == size && t.View() == Replay(size, log)
    {
      t := new SequenceTracker(size);
      for i := 0 to |log|
        invariant fresh(t) && fresh(t.Footprint()) && t.Valid() && t.reorderWindow == size
        invariant t.View() == Replay(size, log[..i])
      {
        assert log[..i + 1][..i] == log[..i];
        t.Make(log[i]);
      }
      assert log[..|log|] == log;
    }

    method Reset()
      requires Valid()
      modifies this
      ensures Valid() && View() == map[] && Footprint() == {}
    {
      producers := map[];
    }

    // Producers still to be reported are as they were in `m`; the others are reported.
    ghost predicate PartlyReported(m: State, todo: set<string>)
      reads this, Footprint()
    {
      && m.Keys == producers.Keys
      && (forall id :: id in producers ==> producers[id].View() == if id in todo then m[id] else Reported(m[id]))
    }

    method ReportOne(id: string, ghost m: State, ghost todo: set<string>) returns (delta: nat)
      requires Valid() && PartlyReported(m, todo) && id in producers && id in todo
      modifies {producers[id]}`lastReportedLost
      ensures Valid() && PartlyReported(m, todo - {id}) && delta == Delta(m[id])
    {
      var ps := producers[id];
      delta := ps.Report();
      forall other | other in producers && other != id
        ensures producers[other].View() == old(producers[other].View())
      {
        assert producers[other] != ps && producers[other].window != ps.window;
      }
    }

    method DetectGaps() returns (deltas: map<string, nat>)
      requires Valid()
      modifies (set p | p in producers.Values)`lastReportedLost
      ensures Valid() && View() == ReportedIn(old(View()))
      ensures deltas == Deltas(old(View()))
    {
      deltas := map[];
      var todo := producers.Keys;
      ghost var m := View();
      while todo != {}
        invariant todo <= producers.Keys && Valid() && PartlyReported(m, todo)
        invariant deltas == DeltasExcept(m, todo)
        decreases todo
      {
        var id :| id in todo;
        DeltasStep(m, todo, id);
        var delta := ReportOne(id, m, todo);
        if delta > 0 {
          deltas := deltas[id := delta];
        }
        todo := todo - {id};
      }
    }

    /** Adds one counter up over all producers, in whatever order they come. */
    method Sum(c: Counter) returns (total: nat)
      requires Valid()
      ensures total == Weight(View(), Reader(c))
    {
      total := 0;
      ghost var left := View();
      var todo := producers.Keys;
      while todo != {}
        invariant todo == left.Keys && (forall id :: id in left ==> id in producers && left[id] == producers[id].View())
        invariant total + Weight(left, Reader(c)) == Weight(View(), Reader(c))
        decreases todo
      {
        var id :| id in todo;
        var ps := producers[id];
        var value := match c
          case Received => ps.received
          case Duplicates => ps.duplicates
          case OutOfOrder => ps.outOfOrder
          case ConfirmedLost => ps.confirmedLost;
        WeightRemove(left, id, Reader(c));
        total := total + value;
        todo, left := todo - {id}, left - {id};
      }
      assert left == map[];
    }
  }
}
