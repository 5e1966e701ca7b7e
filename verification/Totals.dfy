/** What the tracker's totals mean in terms of the calls it received. */
module Totals {
  import opened Weights
  import opened SequenceModel
  import opened TrackerModel
  import LossAccounting

  /** What each counter of a producer counts, in terms of its arrivals. */
  lemma CountersMean(size: nat, arrivals: seq<nat>)
    requires |arrivals| > 0
    ensures var p, l := Run(size, arrivals), LossAccounting.Replay(size, arrivals);
            && Read(Received, p) == |arrivals|
            && Read(OutOfOrder, p) == LossAccounting.Descents(arrivals)
            && Read(ConfirmedLost, p) == |p.pending|
            && Read(Duplicates, p) == |arrivals| - |l.accepted| - l.slides
  {
    LossAccounting.ReplayIsOfRun(size, arrivals);
    LossAccounting.ReplayIsConsistent(size, arrivals);
    LossAccounting.ReceiveConservation(size, arrivals);
    LossAccounting.OutOfOrderCountsDescents(size, arrivals);
  }

  /** The counters do not depend on what was reported, so after every log they are those of
      the producer's own arrivals. */
  lemma CountersOfLog(size: nat, log: seq<Call>, id: string, c: Counter)
    requires id in Replay(size, log)
    ensures Arrivals(log, id) != [] && Read(c, Replay(size, log)[id]) == Read(c, Run(size, Arrivals(log, id)))
  {
    ProducersAreIndependent(size, log, id);
    assert Read(c, Replay(size, log)[id]) == Read(c, Replay(size, log)[id].(lastReportedLost := 0));
  }

  /** The calls to `Record` since the last reset. */
  function Recorded(log: seq<Call>): nat {
    if log == [] then 0
    else
      match log[|log| - 1]
      case Record(_, _) => Recorded(log[..|log| - 1]) + 1
      case DetectGaps => Recorded(log[..|log| - 1])
      case Reset => 0
  }

  lemma StepReceives(size: nat, p: Producer, n: nat)
    ensures Step(size, p, n).received == p.received + 1
  {
  }

  lemma RecordAddsOne(size: nat, m: State, id: string, n: nat)
    ensures Weight(RecordIn(size, m, id, n), Reader(Received)) == Weight(m, Reader(Received)) + 1
  {
    var p := if id in m then Step(size, m[id], n) else First(n);
    if id in m {
      StepReceives(size, m[id], n);
    }
    WeightUpdate(m, id, p, Reader(Received));
  }

  lemma {:induction false} ReportingKeepsWeight(m: State, c: Counter)
    ensures Weight(ReportedIn(m), Reader(c)) == Weight(m, Reader(c))
    decreases m.Keys
  {
    if m == map[] {
      assert ReportedIn(m) == map[];
    } else {
      var id :| id in m;
      WeightRemove(m, id, Reader(c));
      WeightRemove(ReportedIn(m), id, Reader(c));
      assert ReportedIn(m) - {id} == ReportedIn(m - {id});
      ReportingKeepsWeight(m - {id}, c);
    }
  }

  /** After every log the total received is the number of calls since the last reset. */
  lemma {:induction false} TotalReceivedIsCalls(size: nat, log: seq<Call>)
    ensures Weight(Replay(size, log), Reader(Received)) == Recorded(log)
  {
    if log != [] {
      var before := log[..|log| - 1];
      TotalReceivedIsCalls(size, before);
      match log[|log| - 1]
      case Record(id, n) => RecordAddsOne(size, Replay(size, before), id, n);
      case DetectGaps => ReportingKeepsWeight(Replay(size, before), Received);
      case Reset =>
    }
  }
}
