/** The care a Redis lock run needs is exact: every careless step can be continued to two lock holders. */
module RedisRaces {
  import opened RedisLock

  lemma TwoHolders(s: State, g: Holder, h: Holder)
    requires g != h && Leased(s, g) && Leased(s, h)
    ensures !Exclusive(s)
  {
  }

  /** A call id not in use. */
  lemma {:induction false} FreshId(ids: set<CallId>) returns (id: CallId)
    ensures id !in ids
  {
    if ids == {} {
      id := 0;
    } else {
      var top := Highest(ids);
      id := top + 1;
    }
  }

  lemma {:induction false} Highest(ids: set<CallId>) returns (top: CallId)
    requires ids != {}
    ensures top in ids && forall i | i in ids :: i <= top
    decreases ids
  {
    var first :| first in ids;
    var rest := ids - {first};
    if rest == {} {
      assert ids == {first};
      top := first;
    } else {
      var t := Highest(rest);
      top := if t > first then t else first;
      assert forall i | i in ids :: i == first || i in rest;
    }
  }

  /** With the key free, any holder can take it at once. */
  lemma {:induction false} TakeFreeKey(s: State, h: Holder) returns (steps: seq<Step>, id: CallId)
    requires s.key.Absent?
    ensures id !in s.calls && PossibleRun(s, steps)
    ensures Run(s, steps) == s.(key := Held(h, s.now + 1), leases := s.leases[h := s.now + 1])
  {
    id := FreshId(s.calls.Keys);
    steps := [Begin(id, h, Acquire(1)), Execute(id)];
    var s1 := Next(s, steps[0]);
    assert steps[1..] == [Execute(id)] && steps[1..][1..] == [];
    var s2 := Next(s1, steps[1]);
    assert s2.calls == s.calls;
    assert Run(s1, steps[1..]) == s2;
  }

  lemma {:induction false} RunConcat(s: State, a: seq<Step>, b: seq<Step>)
    requires PossibleRun(s, a) && PossibleRun(Run(s, a), b)
    ensures PossibleRun(s, a + b) && Run(s, a + b) == Run(Run(s, a), b)
    decreases |a|
  {
    if a == [] {
      assert a + b == b;
    } else {
      assert (a + b)[1..] == a[1..] + b;
      RunConcat(Next(s, a[0]), a[1..], b);
    }
  }

  /** Two holders other than h. */
  function Other(h: Holder, k: nat): Holder {
    h + if k == 0 then "x" else "xx"
  }

  /** If the key goes away under an armed call, the run can be continued, without the clock moving,
      to a state in which two holders have unexpired leases. */
  lemma {:induction false} ArmedWithoutKeyIsUnsafe(s: State, id: CallId) returns (steps: seq<Step>)
    requires s.key.Absent? && id in s.calls && Armed(s.calls[id])
    ensures Clash(s, steps)
  {
    var h := s.calls[id].holder;
    var b, c := Other(h, 0), Other(h, 1);
    var take, _ := TakeFreeKey(s, b);
    var s1 := Run(s, take);
    var s2 := Next(s1, Execute(id));
    OneStep(s1, Execute(id));
    RunConcat(s, take, [Execute(id)]);
    steps := take + [Execute(id)];
    assert b != h && c != b && c != h by { assert |b| == |h| + 1 && |c| == |h| + 2; }
    if s.calls[id].next.ReleaseDel? {
      var again, _ := TakeFreeKey(s2, c);
      RunConcat(s, steps, again);
      steps := steps + again;
      TwoHolders(Run(s, steps), b, c);
    } else {
      TwoHolders(s2, b, h);
    }
  }

  lemma OneStep(s: State, step: Step)
    requires Enabled(s, step)
    ensures PossibleRun(s, [step]) && Run(s, [step]) == Next(s, step)
  {
    assert [step][1..] == [];
    assert PossibleRun(Next(s, step), []);
  }

  /** A run in which no time passes and which ends with two holders holding the lock. */
  ghost predicate Clash(s: State, steps: seq<Step>) {
    PossibleRun(s, steps) && Run(s, steps).now == s.now && !Exclusive(Run(s, steps))
  }

  /** Care is exactly what safety needs: a careful step keeps every careful continuation exclusive, and a
      careless one has a continuation, in which no time passes, that gives two holders the lock. */
  lemma {:induction false} CareIsExact(s: State, step: Step)
    requires Inv(s) && Enabled(s, step)
    ensures Careful(s, step) <==> Inv(Next(s, step))
    ensures Careful(s, step) ==> forall rest :: CarefulRun(Next(s, step), rest) ==>
              PossibleRun(Next(s, step), rest) && Exclusive(Run(Next(s, step), rest))
    ensures !Careful(s, step) ==> exists rest :: Clash(Next(s, step), rest)
  {
    var t := Next(s, step);
    if Careful(s, step) {
      CarefulStepKeepsInv(s, step);
      forall rest | CarefulRun(t, rest) ensures PossibleRun(t, rest) && Exclusive(Run(t, rest)) {
        CarefulRunIsExclusive(t, rest);
      }
    } else {
      var id :| id in s.calls && Armed(s.calls[id]) && !(step.Execute? && step.id == id);
      assert t.key.Absent? && id in t.calls && t.calls[id] == s.calls[id];
      var rest := ArmedWithoutKeyIsUnsafe(t, id);
    }
  }

  /** A heartbeat overtaken by expiry: "a" reads its own key, the key lapses, "b" acquires, and the
      late EXPIRE leaves both believing they hold the lock until time 10. */
  lemma LateHeartbeatRace()
    ensures var steps := [Begin(1, "a", Acquire(5)), Execute(1), Begin(2, "a", Heartbeat(5)), Execute(2), Tick(5),
                          Begin(3, "b", Acquire(5)), Execute(3), Execute(2)];
      && PossibleRun(START, steps)
      && Run(START, steps).leases == map["a" := 10, "b" := 10] && Run(START, steps).now == 5
  {
    var rest := [Tick(5), Begin(3, "b", Acquire(5)), Execute(3), Execute(2)];
    var s4 := State(0, Held("a", 5), map[2 := Call("a", BeatExpire(5))], map["a" := 5]);
    RaceCloses();
    hide Next;
    var s1, s2, s3 := RaceOpens();
    RunCons(s3, Execute(2), rest);
    RunCons(s2, Begin(2, "a", Heartbeat(5)), [Execute(2)] + rest);
    RunCons(s1, Execute(1), [Begin(2, "a", Heartbeat(5)), Execute(2)] + rest);
    RunCons(START, Begin(1, "a", Acquire(5)), [Execute(1), Begin(2, "a", Heartbeat(5)), Execute(2)] + rest);
  }

  lemma RaceOpens() returns (s1: State, s2: State, s3: State)
    ensures Enabled(START, Begin(1, "a", Acquire(5))) && s1 == Next(START, Begin(1, "a", Acquire(5)))
    ensures Enabled(s1, Execute(1)) && s2 == Next(s1, Execute(1))
    ensures Enabled(s2, Begin(2, "a", Heartbeat(5))) && s3 == Next(s2, Begin(2, "a", Heartbeat(5)))
    ensures Enabled(s3, Execute(2))
    ensures Next(s3, Execute(2)) == State(0, Held("a", 5), map[2 := Call("a", BeatExpire(5))], map["a" := 5])
  {
    s1 := State(0, Absent, map[1 := Call("a", AcquireSet(5))], map[]);
    s2 := State(0, Held("a", 5), map[], map["a" := 5]);
    s3 := State(0, Held("a", 5), map[2 := Call("a", BeatGet(5))], map["a" := 5]);
  }

  lemma RaceCloses()
    ensures var s4 := State(0, Held("a", 5), map[2 := Call("a", BeatExpire(5))], map["a" := 5]);
      var rest := [Tick(5), Begin(3, "b", Acquire(5)), Execute(3), Execute(2)];
      && PossibleRun(s4, rest) && Run(s4, rest).leases == map["a" := 10, "b" := 10] && Run(s4, rest).now == 5
  {
    var s4 := State(0, Held("a", 5), map[2 := Call("a", BeatExpire(5))], map["a" := 5]);
    var s5 := Next(s4, Tick(5));
    var s6 := Next(s5, Begin(3, "b", Acquire(5)));
    var s7 := Next(s6, Execute(3));
    OneStep(s7, Execute(2));
    RunCons(s6, Execute(3), [Execute(2)]);
    RunCons(s5, Begin(3, "b", Acquire(5)), [Execute(3), Execute(2)]);
    RunCons(s4, Tick(5), [Begin(3, "b", Acquire(5)), Execute(3), Execute(2)]);
  }

  lemma RunCons(s: State, step: Step, rest: seq<Step>)
    requires Enabled(s, step) && PossibleRun(Next(s, step), rest)
    ensures PossibleRun(s, [step] + rest) && Run(s, [step] + rest) == Run(Next(s, step), rest)
  {
    assert ([step] + rest)[1..] == rest;
  }
}
