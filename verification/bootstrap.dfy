/** `Circuit.bootstrap`: which coroutines are gathered, decided from which
    of the four instrument slots hold an instrument. */
module Bootstrap {

  /** Presence of each optional instrument passed to the constructor. */
  datatype Slots = Slots(voltmeter: bool, ammeter: bool, ohmmeter: bool, raOhmmeter: bool)

  /** The coroutines `bootstrap` can schedule, named after the methods
      that produce them. */
  datatype Task =
    | CounterT   // the circuit's own clock
    | CounterV   // the voltmeter's sampling loop
    | CounterC   // the ammeter's sampling loop
    | CounterR   // the ohmmeter's loop
    | CounterRa  // the rolling-average ohmmeter's loop

  /** Position of each task in the order `bootstrap` appends them. */
  function Rank(t: Task): (r: nat)
    ensures r < 5
  {
    match t
    case CounterT => 0
    case CounterV => 1
    case CounterC => 2
    case CounterR => 3
    case CounterRa => 4
  }

  /** Strictly increasing in rank, hence without repetitions. */
  predicate Ordered(ts: seq<Task>)
  {
    forall i, j :: 0 <= i < j < |ts| ==> Rank(ts[i]) < Rank(ts[j])
  }

  /** The task list handed to `asyncio.gather`. The clock is always first;
      each meter's loop is there exactly when the meter is; each ohmmeter
      loop needs its ohmmeter AND both a voltmeter and an ammeter. The
      list is in append order (`TasksOrdered`). */
  function Tasks(s: Slots): (ts: seq<Task>)
    ensures |ts| > 0 && ts[0] == CounterT
    ensures CounterV in ts <==> s.voltmeter
    ensures CounterC in ts <==> s.ammeter
    ensures CounterR in ts <==> s.voltmeter && s.ammeter && s.ohmmeter
    ensures CounterRa in ts <==> s.voltmeter && s.ammeter && s.raOhmmeter
  {
    var withV := AppendIf([CounterT], s.voltmeter, CounterV);
    var withC := AppendIf(withV, s.ammeter, CounterC);
    var withR := AppendIf(withC, s.voltmeter && s.ammeter && s.ohmmeter, CounterR);
    AppendIf(withR, s.voltmeter && s.ammeter && s.raOhmmeter, CounterRa)
  }

  /** One guarded `tasks.append`: adds `t` at the end when `c` holds. */
  function AppendIf(ts: seq<Task>, c: bool, t: Task): (r: seq<Task>)
    ensures |ts| <= |r| && r[..|ts|] == ts
    ensures forall x :: x in r <==> x in ts || (c && x == t)
  {
    if c then ts + [t] else ts
  }

  /** Every task in `ts` ranks below `k`. */
  predicate RanksBelow(ts: seq<Task>, k: nat)
  {
    forall i :: 0 <= i < |ts| ==> Rank(ts[i]) < k
  }

  /** Appending a task that outranks everything already in a rank-ordered
      list keeps it rank-ordered. */
  lemma AppendIfOrdered(ts: seq<Task>, c: bool, t: Task)
    requires Ordered(ts) && RanksBelow(ts, Rank(t))
    ensures Ordered(AppendIf(ts, c, t)) && RanksBelow(AppendIf(ts, c, t), Rank(t) + 1)
  {
    var r := AppendIf(ts, c, t);
    forall i, j | 0 <= i < j < |r|
      ensures Rank(r[i]) < Rank(r[j])
    {
      if j < |ts| {
        assert r[i] == ts[i] && r[j] == ts[j];
      } else {
        assert r[i] == ts[i] && r[j] == t;
      }
    }
    forall i | 0 <= i < |r|
      ensures Rank(r[i]) < Rank(t) + 1
    {
      if i < |ts| {
        assert r[i] == ts[i];
      }
    }
  }

  /** The tasks appear in the order `bootstrap` appends them, so none
      appears twice. */
  lemma TasksOrdered(s: Slots)
    ensures Ordered(Tasks(s))
  {
    var withV := AppendIf([CounterT], s.voltmeter, CounterV);
    var withC := AppendIf(withV, s.ammeter, CounterC);
    var withR := AppendIf(withC, s.voltmeter && s.ammeter && s.ohmmeter, CounterR);
    AppendIfOrdered([CounterT], s.voltmeter, CounterV);
    AppendIfOrdered(withV, s.ammeter, CounterC);
    AppendIfOrdered(withC, s.voltmeter && s.ammeter && s.ohmmeter, CounterR);
    AppendIfOrdered(withR, s.voltmeter && s.ammeter && s.raOhmmeter, CounterRa);
  }

  /** A strictly rank-ordered task list holds at most one task per rank,
      so `bootstrap` never schedules more than the five loops. */
  lemma {:induction false} RankedListsAreShort(ts: seq<Task>)
    requires Ordered(ts)
    ensures |ts| <= 5
    ensures |ts| > 0 ==> Rank(ts[|ts| - 1]) >= |ts| - 1
  {
    if |ts| > 1 {
      var front := ts[..|ts| - 1];
      assert Ordered(front) by {
        forall i, j | 0 <= i < j < |front|
          ensures Rank(front[i]) < Rank(front[j])
        {
          assert front[i] == ts[i] && front[j] == ts[j];
        }
      }
      RankedListsAreShort(front);
      assert front[|front| - 1] == ts[|ts| - 2];
      assert Rank(ts[|ts| - 2]) < Rank(ts[|ts| - 1]);
      assert Rank(ts[|ts| - 1]) < 5;
    }
  }

  lemma TasksAtMostFive(s: Slots)
    ensures |Tasks(s)| <= 5
  {
    TasksOrdered(s);
    RankedListsAreShort(Tasks(s));
  }

  /** Two rank-ordered task lists with the same members are the same list. */
  lemma {:induction false} OrderedUnique(a: seq<Task>, b: seq<Task>)
    requires Ordered(a) && Ordered(b)
    requires forall x :: x in a <==> x in b
    ensures a == b
  {
    assert a != [] ==> a[0] in a;
    assert b != [] ==> b[0] in b;
    if a == [] || b == [] {
      if a != [] || b != [] {
        assert false;
      }
    } else {
      SameHead(a, b);
      SameTailMembers(a, b);
      OrderedUnique(a[1..], b[1..]);
      assert a == [a[0]] + a[1..];
      assert b == [b[0]] + b[1..];
    }
  }

  /** The head of a rank-ordered list has the least rank of its members. */
  lemma HeadIsLeast(a: seq<Task>, x: Task)
    requires Ordered(a) && x in a
    ensures Rank(a[0]) <= Rank(x)
  {
    var i :| 0 <= i < |a| && a[i] == x;
    if i > 0 {
      assert Rank(a[0]) < Rank(a[i]);
    }
  }

  /** Distinct tasks have distinct ranks. */
  lemma RankInjective(x: Task, y: Task)
    requires Rank(x) == Rank(y)
    ensures x == y
  {
  }

  lemma SameHead(a: seq<Task>, b: seq<Task>)
    requires Ordered(a) && Ordered(b) && a != [] && b != []
    requires forall x :: x in a <==> x in b
    ensures a[0] == b[0]
  {
    assert a[0] in a && b[0] in b;
    HeadIsLeast(a, b[0]);
    HeadIsLeast(b, a[0]);
    RankInjective(a[0], b[0]);
  }

  lemma SameTailMembers(a: seq<Task>, b: seq<Task>)
    requires Ordered(a) && Ordered(b) && a != [] && b != [] && a[0] == b[0]
    requires forall x :: x in a <==> x in b
    ensures Ordered(a[1..]) && Ordered(b[1..])
    ensures forall x :: x in a[1..] <==> x in b[1..]
  {
    TailMembers(a, a[0]);
    TailMembers(b, b[0]);
    forall x
      ensures x in a[1..] <==> x in b[1..]
    {
      TailMembers(a, x);
      TailMembers(b, x);
    }
  }

  /** In a rank-ordered list, the tail holds every member but the head. */
  lemma TailMembers(a: seq<Task>, x: Task)
    requires Ordered(a) && a != []
    ensures Ordered(a[1..])
    ensures x in a[1..] <==> x in a && x != a[0]
  {
    if x in a[1..] {
      var i :| 0 <= i < |a[1..]| && a[1..][i] == x;
      assert a[i + 1] == x;
      assert Rank(a[0]) < Rank(a[i + 1]);
    }
    if x in a && x != a[0] {
      var i :| 0 <= i < |a| && a[i] == x;
      assert a[1..][i - 1] == x;
    }
  }

  /** `bootstrap` schedules exactly the enabled loops, each once, in the
      fixed order clock, voltmeter, ammeter, ohmmeter, rolling-average
      ohmmeter: any list with those two properties is `Tasks(s)`. */
  lemma TasksCharacterized(s: Slots, ts: seq<Task>)
    requires Ordered(ts)
    requires CounterT in ts
    requires CounterV in ts <==> s.voltmeter
    requires CounterC in ts <==> s.ammeter
    requires CounterR in ts <==> s.voltmeter && s.ammeter && s.ohmmeter
    requires CounterRa in ts <==> s.voltmeter && s.ammeter && s.raOhmmeter
    ensures ts == Tasks(s)
  {
    var us := Tasks(s);
    TasksOrdered(s);
    assert us[0] in us;
    forall x
      ensures x in ts <==> x in us
    {
      match x
      case CounterT =>
      case CounterV =>
      case CounterC =>
      case CounterR =>
      case CounterRa =>
    }
    OrderedUnique(ts, us);
  }
}
