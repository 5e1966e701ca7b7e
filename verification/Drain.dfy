/** The bounded drains of the seek_snapshot worker, against any broker. A broker is an
    arbitrary function from the number of the pull to what that pull meets. */
module Drain {

  datatype Pull =
    | Interrupted          // cancelled, or the pull or the sleep failed
    | AckFailed(n: nat)    // `n` messages, counted before their ack failed
    | Messages(n: nat)     // `n` messages, acked; an empty answer is slept on

  type Broker = nat -> Pull

  const QUIESCENT_POLLS: nat := 5
  const PULL_BATCH: nat := 250

  /** Messages handed out by the first `pulls` pulls. */
  function Delivered(broker: Broker, pulls: nat): nat {
    if pulls == 0 then 0
    else Delivered(broker, pulls - 1) + match broker(pulls - 1)
      case Interrupted => 0
      case AckFailed(n) => n
      case Messages(n) => n
  }

  /** No pull returns more than a batch. */
  ghost predicate Batched(broker: Broker) {
    forall i :: !broker(i).Interrupted? ==> broker(i).n <= PULL_BATCH
  }

  /** The last `count` of the first `pulls` pulls were empty. */
  ghost predicate EmptySince(broker: Broker, pulls: nat, count: nat) {
    count <= pulls && forall i: nat :: pulls - count <= i < pulls ==> broker(i) == Messages(0)
  }

  /** Pulls and acks until `want` messages are in hand or the subscription is quiet, that
      is, six pulls in a row came back empty, and no sooner or later than that. However the
      broker answers, this takes at most `6 * want` pulls, and overshoots by less than one
      batch. */
  method DrainAck(broker: Broker, want: nat) returns (got: nat, pulls: nat, ok: bool)
    ensures got == Delivered(broker, pulls)
    ensures pulls <= 6 * want
    ensures Batched(broker) && want > 0 ==> got < want + PULL_BATCH
    ensures ok ==> got >= want || EmptySince(broker, pulls, 6)
    ensures forall i: nat :: i < pulls ==> !EmptySince(broker, i, 6)
    ensures !ok <==> pulls > 0 && !broker(pulls - 1).Messages?
    ensures forall i: nat :: i < pulls ==> Delivered(broker, i) < want
    ensures forall i: nat :: i < pulls - 1 ==> broker(i).Messages?
  {
    got, pulls := 0, 0;
    var emptyPolls := 0;
    ghost var nonEmpty := 0;
    while got < want
      invariant got == Delivered(broker, pulls)
      invariant emptyPolls <= QUIESCENT_POLLS && EmptySince(broker, pulls, emptyPolls)
      invariant pulls > emptyPolls ==> broker(pulls - emptyPolls - 1) != Messages(0)
      invariant forall i: nat :: i <= pulls ==> !EmptySince(broker, i, 6)
      invariant pulls <= 6 * nonEmpty + emptyPolls && nonEmpty <= got
      invariant got < want || pulls <= 6 * want
      invariant Batched(broker) && want > 0 ==> got < want + PULL_BATCH
      invariant forall i: nat :: i < pulls ==> broker(i).Messages?
      invariant forall i: nat :: i < pulls ==> Delivered(broker, i) < want
      decreases want - got, QUIESCENT_POLLS - emptyPolls
    {
      pulls := pulls + 1;
      match broker(pulls - 1)
      case Interrupted => return got, pulls, false;
      case AckFailed(n) => return got + n, pulls, false;
      case Messages(n) =>
        if n == 0 {
          emptyPolls := emptyPolls + 1;
          if emptyPolls > QUIESCENT_POLLS {
            return got, pulls, true;
          }
        } else {
          emptyPolls := 0;
          got := got + n;
          nonEmpty := nonEmpty + 1;
        }
    }
    ok := true;
  }

  /** Drains everything after a seek. It ends, with every message handed out counted, for
      every broker that has finitely many messages to give. */
  method DrainReplay(broker: Broker, ghost supply: nat) returns (observed: nat, pulls: nat, ok: bool)
    requires forall k :: Delivered(broker, k) <= supply
    ensures observed == Delivered(broker, pulls)
    ensures pulls <= 6 * (supply + 1)
    ensures ok ==> EmptySince(broker, pulls, 6)
    ensures forall i: nat :: i < pulls ==> !EmptySince(broker, i, 6)
    ensures !ok <==> pulls > 0 && !broker(pulls - 1).Messages?
    ensures forall i: nat :: i < pulls - 1 ==> broker(i).Messages?
  {
    observed, pulls := 0, 0;
    var emptyPolls := 0;
    ghost var nonEmpty := 0;
    while true
      invariant observed == Delivered(broker, pulls)
      invariant emptyPolls <= QUIESCENT_POLLS && EmptySince(broker, pulls, emptyPolls)
      invariant pulls > emptyPolls ==> broker(pulls - emptyPolls - 1) != Messages(0)
      invariant forall i: nat :: i <= pulls ==> !EmptySince(broker, i, 6)
      invariant pulls <= 6 * nonEmpty + emptyPolls && nonEmpty <= observed
      invariant forall i: nat :: i < pulls ==> broker(i).Messages?
      decreases supply - observed, QUIESCENT_POLLS - emptyPolls
    {
      assert Delivered(broker, pulls + 1) <= supply;
      pulls := pulls + 1;
      match broker(pulls - 1)
      case Interrupted => return observed, pulls, false;
      case AckFailed(n) => return observed + n, pulls, false;
      case Messages(n) =>
        if n == 0 {
          emptyPolls := emptyPolls + 1;
          if emptyPolls > QUIESCENT_POLLS {
            return observed, pulls, true;
          }
        } else {
          emptyPolls := 0;
          observed := observed + n;
          nonEmpty := nonEmpty + 1;
        }
    }
  }
}
