/** Reconciling published messages with confirmed ones by a text key, as the dead_letter
    and cross_protocol_interop workers do. */
module ReconciliationKeys {

  // ---- the key: producer, '#', decimal sequence ----

  function Digit(d: nat): char
    requires d < 10
  {
    ['0', '1', '2', '3', '4', '5', '6', '7', '8', '9'][d]
  }

  function Decimal(n: nat): (s: string)
    ensures |s| > 0 && forall i :: 0 <= i < |s| ==> '0' <= s[i] <= '9'
  {
    if n < 10 then [Digit(n)] else Decimal(n / 10) + [Digit(n % 10)]
  }

  function Value(s: string): nat
    requires forall i :: 0 <= i < |s| ==> '0' <= s[i] <= '9'
  {
    if s == [] then 0 else 10 * Value(s[..|s| - 1]) + (s[|s| - 1] as int - '0' as int)
  }

  /** Reading a decimal back gives the number. */
  lemma {:induction false} DecimalRoundTrip(n: nat)
    ensures Value(Decimal(n)) == n
  {
    if n >= 10 {
      DecimalRoundTrip(n / 10);
      var s := Decimal(n / 10);
      assert (s + [Digit(n % 10)])[..|s|] == s;
    }
  }

  type Message = (string, nat)  // producer and sequence

  function Key(m: Message): string {
    m.0 + "#" + Decimal(m.1)
  }

  lemma LastHashEndsProducer(m: Message)
    ensures Key(m)[|m.0|] == '#'
    ensures forall i :: |m.0| < i < |Key(m)| ==> Key(m)[i] != '#'
    ensures Key(m)[..|m.0|] == m.0 && Key(m)[|m.0| + 1..] == Decimal(m.1)
  {
  }

  /** The key determines the producer and the sequence, even if the producer's own name
      contains '#'. */
  lemma KeyIsInjective(a: Message, b: Message)
    requires Key(a) == Key(b)
    ensures a == b
  {
    LastHashEndsProducer(a);
    LastHashEndsProducer(b);
    assert |a.0| == |b.0|;
    DecimalRoundTrip(a.1);
    DecimalRoundTrip(b.1);
  }

  function Keys(ms: set<Message>): set<string> {
    set m | m in ms :: Key(m)
  }

  /** Distinct messages have distinct keys, so counting keys counts messages. */
  lemma {:induction false} KeysCount(ms: set<Message>)
    ensures |Keys(ms)| == |ms|
    decreases ms
  {
    if ms != {} {
      var m :| m in ms;
      var rest := ms - {m};
      KeysCount(rest);
      if Key(m) in Keys(rest) {
        var other :| other in rest && Key(other) == Key(m);
        KeyIsInjective(other, m);
      }
      assert Keys(ms) == Keys(rest) + {Key(m)};
    }
  }

  lemma KeyMembership(ms: set<Message>, m: Message)
    ensures Key(m) in Keys(ms) <==> m in ms
  {
    if Key(m) in Keys(ms) {
      var other :| other in ms && Key(other) == Key(m);
      KeyIsInjective(other, m);
    }
  }

  // ---- the reconciler ----

  /** The messages to charge at time `now`: published, not confirmed, older than `budget`. */
  function Overdue(publishes: map<Message, int>, confirms: set<Message>, now: int, budget: nat): set<Message> {
    set m | m in publishes && m !in confirms && now - publishes[m] > budget
  }

  /** Nothing younger than the budget and nothing confirmed is ever charged, and once all that
      is unconfirmed is older, the charged and the confirmed make up all that was published. */
  lemma ChargedAndConfirmedAreAll(publishes: map<Message, int>, confirms: set<Message>, now: int, budget: nat)
    ensures var late := Overdue(publishes, confirms, now, budget);
            && (forall m :: m in late ==> m in publishes && m !in confirms && publishes[m] + budget < now)
            && |late| + |publishes.Keys * confirms| <= |publishes|
            && (|late| + |publishes.Keys * confirms| == |publishes| <==>
                forall m :: m in publishes && m !in confirms ==> publishes[m] + budget < now)
  {
    var late, known := Overdue(publishes, confirms, now, budget), publishes.Keys * confirms;
    var young := publishes.Keys - known - late;
    assert publishes.Keys == late + known + young;
    assert |publishes.Keys| == |late + known| + |young| && |late + known| == |late| + |known|;
    assert |publishes| == |publishes.Keys|;
    if young == {} {
      forall m | m in publishes && m !in confirms ensures publishes[m] + budget < now {
        assert m !in young;
      }
    } else {
      var m :| m in young;
      assert m in publishes && m !in confirms && !(publishes[m] + budget < now);
    }
  }

  /** A longer wait charges no less, and a late confirmation takes exactly its message off. */
  lemma OverdueMoves(publishes: map<Message, int>, confirms: set<Message>, now: int, later: int, budget: nat,
                     m: Message)
    requires now <= later
    ensures Overdue(publishes, confirms, now, budget) <= Overdue(publishes, confirms, later, budget)
    ensures Overdue(publishes, confirms + {m}, now, budget) == Overdue(publishes, confirms, now, budget) - {m}
  {
  }

  /** The messages of `late` whose keys are no longer to be looked at. */
  ghost function DoneOf(late: set<Message>, todo: set<string>): set<Message> {
    set m | m in late && Key(m) !in todo
  }

  lemma OverdueStep(late: set<Message>, all: set<Message>, todo: set<string>, m: Message)
    requires late <= all && m in all && Key(m) in todo
    ensures DoneOf(late, todo - {Key(m)}) == DoneOf(late, todo) + if m in late then {m} else {}
    ensures m !in DoneOf(late, todo)
  {
    forall other | other in late && Key(other) == Key(m) ensures other == m {
      KeyIsInjective(other, m);
    }
  }

  class Reconciler {
    var published: map<string, int>     // key to publish time
    var confirmed: set<string>          // keys confirmed on the other side
    var count: nat                      // the republished / converged counter
    var lost: nat                       // the lost / diverged counter
    ghost var publishes: map<Message, int>
    ghost var confirms: set<Message>
    ghost var uncounted: nat            // callers between the mutex and the increment

    ghost predicate Valid()
      reads this
    {
      && confirmed == Keys(confirms)
      && count + uncounted == |confirms|
      && (forall m :: m in publishes ==> Key(m) in published && published[Key(m)] == publishes[m])
      && published.Keys == Keys(publishes.Keys)
    }

    constructor ()
      ensures Valid() && publishes == map[] && confirms == {} && lost == 0 && uncounted == 0
    {
      published, confirmed, count, lost := map[], {}, 0, 0;
      publishes, confirms, uncounted := map[], {}, 0;
    }

    method Publish(m: Message, now: int)
      requires Valid()
      modifies this
      ensures Valid() && publishes == old(publishes)[m := now] && confirms == old(confirms) && lost == old(lost)
      ensures uncounted == old(uncounted) && count == old(count)
    {
      forall other | other in publishes && other != m ensures Key(other) != Key(m) {
        if Key(other) == Key(m) {
          KeyIsInjective(other, m);
        }
      }
      published := published[Key(m) := now];
      publishes := publishes[m := now];
    }

    /** The mutex-protected half of a confirmation: remembers the message, and tells the
        caller to count it if it is new. */
    method Confirm(m: Message) returns (isNew: bool)
      requires Valid()
      modifies this
      ensures Valid() && confirms == old(confirms) + {m} && publishes == old(publishes) && lost == old(lost)
      ensures isNew <==> m !in old(confirms)
      ensures uncounted == old(uncounted) + (if isNew then 1 else 0) && count == old(count)
    {
      KeyMembership(confirms, m);
      isNew := Key(m) !in confirmed;
      if isNew {
        confirmed := confirmed + {Key(m)};
        confirms := confirms + {m};
        uncounted := uncounted + 1;
      } else {
        assert confirms + {m} == confirms;
      }
    }

    /** The other half, after the mutex is released: the atomic increment of a caller that was
        told to count. Other callers may have come in between. */
    method Count()
      requires Valid() && uncounted > 0
      modifies this
      ensures Valid() && confirms == old(confirms) && publishes == old(publishes) && lost == old(lost)
      ensures uncounted == old(uncounted) - 1 && count == |confirms| - uncounted
    {
      count := count + 1;
      uncounted := uncounted - 1;
    }

    /** Charges exactly the overdue messages. */
    method Reconcile(now: int, budget: nat) returns (charged: nat)
      requires Valid()
      modifies this
      ensures Valid() && publishes == old(publishes) && confirms == old(confirms) && count == old(count)
      ensures uncounted == old(uncounted)
      ensures charged == |Overdue(publishes, confirms, now, budget)| && lost == old(lost) + charged
    {
      charged := CountOverdue(now, budget);
      if charged > 0 {
        lost := lost + charged;
      }
    }

    method CountOverdue(now: int, budget: nat) returns (charged: nat)
      requires Valid()
      ensures charged == |Overdue(publishes, confirms, now, budget)|
    {
      charged := 0;
      var todo := published.Keys;
      ghost var counted: set<Message> := {};
      while todo != {}
        invariant todo <= published.Keys
        invariant counted == DoneOf(Overdue(publishes, confirms, now, budget), todo)
        invariant charged == |counted|
        decreases todo
      {
        var id :| id in todo;
        ghost var m :| m in publishes && Key(m) == id;
        KeyMembership(confirms, m);
        OverdueStep(Overdue(publishes, confirms, now, budget), publishes.Keys, todo, m);
        if id !in confirmed && now - published[id] > budget {
          charged := charged + 1;
          counted := counted + {m};
        }
        todo := todo - {id};
      }
      assert counted == Overdue(publishes, confirms, now, budget);
    }
  }
}
