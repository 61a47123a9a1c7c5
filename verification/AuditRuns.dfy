/** Whole runs of the audit logger: nothing is lost but what overflows, and when day files stay in logging order. */
module AuditRuns {
  import opened Seqs
  import opened AuditQueue

  function Flat(batches: seq<seq<Stored>>): seq<Stored> {
    if batches == [] then [] else batches[0] + Flat(batches[1..])
  }

  /** Everything of one day on its way to the file: written, then taken and unwritten, then queued. */
  function Pipeline(s: State, d: string): seq<Stored> {
    FileOf(s.files, d) + Day(Flat(s.flights), d) + Day(Waiting(s), d)
  }

  ghost predicate Increasing(s: seq<Stored>) {
    forall i, j :: 0 <= i < j < |s| ==> s[i].at < s[j].at
  }

  ghost predicate AllBelow(a: seq<Stored>, b: seq<Stored>) {
    forall x, y :: x in a && y in b ==> x.at < y.at
  }

  ghost predicate Stamped(memory: seq<Stored>) {
    forall k :: 0 <= k < |memory| ==> memory[k].at == k
  }

  /** What of one day will never be written: dropped at overflow, or refused by the disk. */
  function Gone(s: State, d: string): multiset<Stored> {
    multiset(Day(s.dropped, d)) + multiset(Day(s.lost, d))
  }

  /** Each accepted entry is in exactly one place: its day's file, a batch, the queue, dropped or lost. */
  ghost predicate Conserved(s: State) {
    forall d :: multiset(Pipeline(s, d)) + Gone(s, d) == multiset(Day(s.memory, d))
  }

  ghost predicate Fifo(s: State) {
    && Increasing(Flat(s.flights) + Waiting(s))
    && AllBelow(s.dropped, Waiting(s))
    && (s.queue.None? ==> s.flights == [] && s.dropped == [])
  }

  ghost predicate Bounded(cfg: Config, s: State) {
    0 < cfg.queueMaxSize ==> |Waiting(s)| <= cfg.queueMaxSize
  }

  ghost predicate Tidy(cfg: Config, s: State) {
    Stamped(s.memory) && Conserved(s) && Fifo(s) && Bounded(cfg, s)
  }

  // ----- sequences -----

  lemma DayConcat(a: seq<Stored>, b: seq<Stored>, d: string)
    ensures Day(a + b, d) == Day(a, d) + Day(b, d)
  {
    FilterConcat(a, b, OnDay(d));
  }

  lemma {:induction false} FlatConcat(a: seq<seq<Stored>>, b: seq<seq<Stored>>)
    ensures Flat(a + b) == Flat(a) + Flat(b)
  {
    if a == [] {
      assert a + b == b;
    } else {
      assert (a + b)[1..] == a[1..] + b;
      FlatConcat(a[1..], b);
    }
  }

  lemma FlatOne(batch: seq<Stored>)
    ensures Flat([batch]) == batch
  {
    assert [batch][1..] == [];
  }

  lemma IncreasingConcat(a: seq<Stored>, b: seq<Stored>)
    ensures Increasing(a + b) <==> Increasing(a) && Increasing(b) && AllBelow(a, b)
  {
    var c := a + b;
    if Increasing(c) {
      assert forall i :: 0 <= i < |a| ==> c[i] == a[i];
      assert forall i :: 0 <= i < |b| ==> c[|a| + i] == b[i];
      forall x, y | x in a && y in b ensures x.at < y.at {
        var i :| 0 <= i < |a| && a[i] == x;
        var j :| 0 <= j < |b| && b[j] == y;
        assert c[i].at < c[|a| + j].at;
      }
    }
  }

  // ----- positions -----

  /** Whatever is held anywhere was logged, and sits in memory at its own position. */
  lemma HeldWasLogged(s: State, x: Stored)
    requires Stamped(s.memory) && Conserved(s)
    requires x in Pipeline(s, x.entry.day) || x in s.dropped
    ensures x.at < |s.memory| && s.memory[x.at] == x
  {
    var d := x.entry.day;
    assert x in multiset(Pipeline(s, d)) + Gone(s, d);
    assert x in Day(s.memory, d);
    var k :| 0 <= k < |s.memory| && s.memory[k] == x;
  }

  lemma PendingWasLogged(s: State, x: Stored)
    requires Stamped(s.memory) && Conserved(s) && x in Flat(s.flights) + Waiting(s)
    ensures x.at < |s.memory| && s.memory[x.at] == x
  {
    var d := x.entry.day;
    DayConcat(Flat(s.flights), Waiting(s), d);
    assert x in Day(Flat(s.flights), d) + Day(Waiting(s), d);
    assert x in Pipeline(s, d);
    HeldWasLogged(s, x);
  }

  // ----- every step keeps the books -----

  lemma AppendedFile(files: Files, x: Stored, d: string)
    ensures FileOf(AppendOne(files, x), d) == FileOf(files, d) + Day([x], d)
  {
    assert [x][1..] == [];
  }

  lemma RememberKeepsStamps(memory: seq<Stored>, e: Entry)
    requires Stamped(memory)
    ensures Stamped(memory + [Stored(|memory|, e)])
  {
  }

  lemma SyncKeepsTidy(cfg: Config, s: State, e: Entry, stored: bool)
    requires Tidy(cfg, s)
    ensures Tidy(cfg, SyncStored(Remember(s, e), Stored(|s.memory|, e), stored))
  {
    hide Day, Fifo, Bounded, Stamped;
    var x := Stored(|s.memory|, e);
    var t := SyncStored(Remember(s, e), x, stored);
    RememberKeepsStamps(s.memory, e);
    assert Fifo(t) && Bounded(cfg, t) by { SameQueue(cfg, s, t); }
    forall d ensures multiset(Pipeline(t, d)) + Gone(t, d) == multiset(Day(t.memory, d)) {
      AppendedFile(s.files, x, d);
      DayConcat(s.memory, [x], d);
      DayConcat(s.lost, [x], d);
      assert multiset(Pipeline(s, d)) + Gone(s, d) == multiset(Day(s.memory, d));
    }
  }

  lemma SameQueue(cfg: Config, s: State, t: State)
    requires Fifo(s) && Bounded(cfg, s)
    requires t.queue == s.queue && t.flights == s.flights && t.dropped == s.dropped
    ensures Fifo(t) && Bounded(cfg, t)
  {
  }

  lemma EnqueueKeepsTidy(cfg: Config, s: State, e: Entry)
    requires Tidy(cfg, s)
    ensures Tidy(cfg, Enqueue(cfg, Remember(s, e), Stored(|s.memory|, e)))
  {
    hide Day, Fifo, Stamped, Conserved;
    var x := Stored(|s.memory|, e);
    var t := Enqueue(cfg, Remember(s, e), x);
    RememberKeepsStamps(s.memory, e);
    EnqueueConserves(cfg, s, x);
    forall y | y in Flat(s.flights) + Waiting(s) || y in s.dropped ensures y.at < x.at {
      if y in s.dropped { HeldWasLogged(s, y); } else { PendingWasLogged(s, y); }
    }
    EnqueueKeepsFifo(cfg, s, x);
  }

  lemma EnqueueKeepsFifo(cfg: Config, s: State, x: Stored)
    requires Fifo(s) && forall y :: y in Flat(s.flights) + Waiting(s) || y in s.dropped ==> y.at < x.at
    ensures Fifo(Enqueue(cfg, Remember(s, x.entry), x))
  {
    hide Increasing, AllBelow, Flat;
    var q := Waiting(s);
    if Full(cfg, q) {
      assert q == [q[0]] + q[1..];
      QueueShifts(Flat(s.flights), s.dropped, q[0], q[1..], x);
    } else {
      QueueGrows(Flat(s.flights), s.dropped, q, x);
    }
  }

  lemma QueueGrows(taken: seq<Stored>, dropped: seq<Stored>, q: seq<Stored>, x: Stored)
    requires Increasing(taken + q) && AllBelow(dropped, q)
    requires forall y :: y in taken + q || y in dropped ==> y.at < x.at
    ensures Increasing(taken + (q + [x])) && AllBelow(dropped, q + [x])
  {
    hide Increasing;
    assert taken + (q + [x]) == taken + q + [x];
    IncreasingOne(x);
    IncreasingConcat(taken + q, [x]);
  }

  lemma QueueShifts(taken: seq<Stored>, dropped: seq<Stored>, head: Stored, rest: seq<Stored>, x: Stored)
    requires Increasing(taken + ([head] + rest)) && AllBelow(dropped, [head] + rest)
    requires forall y :: y in taken + ([head] + rest) || y in dropped ==> y.at < x.at
    ensures Increasing(taken + (rest + [x])) && AllBelow(dropped + [head], rest + [x])
  {
    hide Increasing, AllBelow;
    assert taken + ([head] + rest) == taken + [head] + rest;
    IncreasingWithout(taken, [head], rest);
    IncreasingConcat(taken, [head] + rest);
    IncreasingConcat([head], rest);
    Below(dropped, head, rest, x);
    assert forall y :: y in rest ==> y in [head] + rest;
    QueueGrows(taken, dropped, rest, x);
  }

  lemma Below(dropped: seq<Stored>, head: Stored, rest: seq<Stored>, x: Stored)
    requires AllBelow(dropped, [head] + rest) && AllBelow([head], rest) && head.at < x.at
    requires forall y :: y in dropped ==> y.at < x.at
    ensures AllBelow(dropped, rest) && AllBelow(dropped + [head], rest + [x])
  {
    assert forall y :: y in rest ==> y in [head] + rest;
    assert head in [head];
  }

  lemma IncreasingOne(x: Stored)
    ensures Increasing([x])
  {
  }

  lemma EnqueueConserves(cfg: Config, s: State, x: Stored)
    requires Conserved(s) && x.at == |s.memory|
    ensures Conserved(Enqueue(cfg, Remember(s, x.entry), x))
  {
    hide Day, Flat, FileOf, Pipeline, Gone;
    var t := Enqueue(cfg, Remember(s, x.entry), x);
    forall d ensures multiset(Pipeline(t, d)) + Gone(t, d) == multiset(Day(t.memory, d)) {
      assert multiset(Pipeline(s, d)) + Gone(s, d) == multiset(Day(s.memory, d));
      EnqueueAdds(cfg, s, x, d);
      DayConcat(s.memory, [x], d);
    }
  }

  lemma EnqueueAdds(cfg: Config, s: State, x: Stored, d: string)
    ensures var t := Enqueue(cfg, Remember(s, x.entry), x);
      multiset(Pipeline(t, d)) + Gone(t, d) == multiset(Pipeline(s, d)) + Gone(s, d) + multiset(Day([x], d))
  {
    hide Day, Flat, FileOf, Pipeline;
    var q := Waiting(s);
    var t := Enqueue(cfg, Remember(s, x.entry), x);
    InPipeline(s, d);
    InPipeline(t, d);
    assert FileOf(t.files, d) + Day(Flat(t.flights), d) == FileOf(s.files, d) + Day(Flat(s.flights), d);
    assert multiset(Day(Waiting(t), d)) + multiset(Day(t.dropped, d)) ==
      multiset(Day(q, d)) + multiset(Day(s.dropped, d)) + multiset(Day([x], d)) by {
      if Full(cfg, q) {
        assert q == [q[0]] + q[1..];
        ShiftConserves(s.dropped, q[0], q[1..], x, d);
      } else {
        DayConcat(q, [x], d);
      }
    }
    assert Gone(t, d) == multiset(Day(t.dropped, d)) + multiset(Day(s.lost, d));
    Regroup(multiset(FileOf(s.files, d) + Day(Flat(s.flights), d)), multiset(Day(Waiting(t), d)), multiset(Day(t.dropped, d)),
            multiset(Day(s.lost, d)), multiset(Day(q, d)), multiset(Day(s.dropped, d)), multiset(Day([x], d)));
  }

  lemma Regroup(ahead: multiset<Stored>, w: multiset<Stored>, g: multiset<Stored>, lost: multiset<Stored>,
                w0: multiset<Stored>, g0: multiset<Stored>, x: multiset<Stored>)
    requires w + g == w0 + g0 + x
    ensures ahead + w + (g + lost) == ahead + w0 + (g0 + lost) + x
  {
    assert ahead + w + (g + lost) == ahead + (w + g) + lost;
  }

  lemma InPipeline(s: State, d: string)
    ensures multiset(Pipeline(s, d)) ==
      multiset(FileOf(s.files, d) + Day(Flat(s.flights), d)) + multiset(Day(Waiting(s), d))
  {
  }

  lemma ShiftConserves(dropped: seq<Stored>, head: Stored, rest: seq<Stored>, x: Stored, d: string)
    ensures multiset(Day(rest + [x], d)) + multiset(Day(dropped + [head], d))
      == multiset(Day([head] + rest, d)) + multiset(Day(dropped, d)) + multiset(Day([x], d))
  {
    hide Day;
    DayConcat([head], rest, d);
    DayConcat(rest, [x], d);
    DayConcat(dropped, [head], d);
  }

  lemma DrainKeepsPipeline(cfg: Config, s: State)
    ensures var t := Step(cfg, s, Drain);
      && Flat(t.flights) + Waiting(t) == Flat(s.flights) + Waiting(s)
      && forall d :: Pipeline(t, d) == Pipeline(s, d)
  {
    hide Day;
    var n := BatchLength(cfg, Waiting(s));
    var t := Step(cfg, s, Drain);
    if n > 0 {
      var a, b := Waiting(s)[..n], Waiting(s)[n..];
      assert Waiting(s) == a + b;
      FlatConcat(s.flights, [a]);
      FlatOne(a);
      forall d ensures Pipeline(t, d) == Pipeline(s, d) {
        DayConcat(Flat(s.flights), a, d);
        DayConcat(a, b, d);
      }
    }
  }

  lemma DrainKeepsTidy(cfg: Config, s: State)
    requires Tidy(cfg, s)
    ensures Tidy(cfg, Step(cfg, s, Drain))
  {
    hide Pipeline, Increasing;
    DrainKeepsPipeline(cfg, s);
    var t := Step(cfg, s, Drain);
    assert forall y :: y in Waiting(t) ==> y in Waiting(s);
    forall d ensures multiset(Pipeline(t, d)) + Gone(t, d) == multiset(Day(t.memory, d)) {
      assert multiset(Pipeline(s, d)) + Gone(s, d) == multiset(Day(s.memory, d));
    }
  }

  /** What becomes of the unwritten entries when the i-th batch shrinks. */
  lemma FlightShrinks(flights: seq<seq<Stored>>, i: nat, left: seq<Stored>)
    requires i < |flights|
    ensures var before, after := Flat(flights[..i]), Flat(flights[i + 1..]);
      Flat(flights) == before + flights[i] + after && Flat(flights[i := left]) == before + left + after
  {
    FlightsSplit(flights, i);
    FlightsSplit(flights[i := left], i);
    assert flights[i := left][..i] == flights[..i] && flights[i := left][i + 1..] == flights[i + 1..];
  }

  lemma FlightsSplit(flights: seq<seq<Stored>>, i: nat)
    requires i < |flights|
    ensures Flat(flights) == Flat(flights[..i]) + flights[i] + Flat(flights[i + 1..])
  {
    hide Flat;
    var before, rest := flights[..i], flights[i..];
    assert flights == before + rest;
    FlatConcat(before, rest);
    assert rest[0] == flights[i] && rest[1..] == flights[i + 1..];
    FlatFirst(rest);
  }

  lemma FlatFirst(flights: seq<seq<Stored>>)
    requires flights != []
    ensures Flat(flights) == flights[0] + Flat(flights[1..])
  {
  }

  /** The unwritten and queued entries of a day, split around the i-th batch. */
  lemma PipelineSplit(s: State, i: nat, left: seq<Stored>, d: string)
    requires i < |s.flights|
    ensures var before, after := Flat(s.flights[..i]), Flat(s.flights[i + 1..]);
      && Day(Flat(s.flights), d) == Day(before, d) + Day(s.flights[i], d) + Day(after, d)
      && Day(Flat(s.flights[i := left]), d) == Day(before, d) + Day(left, d) + Day(after, d)
  {
    hide Day, Flat;
    var before, after := Flat(s.flights[..i]), Flat(s.flights[i + 1..]);
    FlightShrinks(s.flights, i, left);
    DayConcat(before, s.flights[i], d);
    DayConcat(before + s.flights[i], after, d);
    DayConcat(before, left, d);
    DayConcat(before + left, after, d);
  }

  /** What writing day c of the i-th batch does to day d: on that day the batch jumps the batches taken before it. */
  lemma WriteMoves(cfg: Config, s: State, i: nat, c: string, d: string)
    requires i < |s.flights|
    ensures var before, batch, after := Day(Flat(s.flights[..i]), d), Day(s.flights[i], d), Day(Flat(s.flights[i + 1..]), d);
      var t := Step(cfg, s, Write(i, c));
      && Pipeline(s, d) == FileOf(s.files, d) + (before + batch + after) + Day(Waiting(s), d)
      && Pipeline(t, d) == if d == c then FileOf(s.files, d) + batch + (before + after) + Day(Waiting(s), d)
                           else Pipeline(s, d)
  {
    hide Day, Written, Flat, Rest;
    PipelineSplit(s, i, Rest(s.flights[i], c), d);
    DayOfDay(s.flights[i], c, d);
    WrittenFile(s.files, Day(s.flights[i], c), d);
    var before, after := Day(Flat(s.flights[..i]), d), Day(Flat(s.flights[i + 1..]), d);
    assert before + [] + after == before + after;
    assert FileOf(s.files, d) + [] == FileOf(s.files, d);
  }

  lemma WriteMovesNothingElse(cfg: Config, s: State, i: nat, c: string, d: string)
    requires i < |s.flights|
    ensures multiset(Pipeline(Step(cfg, s, Write(i, c)), d)) == multiset(Pipeline(s, d))
  {
    hide Day, Step, Pipeline, FileOf;
    WriteMoves(cfg, s, i, c, d);
  }

  /** A batch may only get smaller. */
  lemma ShrinkingKeepsFifo(s: State, i: nat, left: seq<Stored>)
    requires Fifo(s) && i < |s.flights| && (left == [] || exists d :: left == Rest(s.flights[i], d))
    ensures Fifo(s.(flights := s.flights[i := left]))
  {
    hide Increasing, AllBelow, Flat, Rest;
    var before, batch, after := Flat(s.flights[..i]), s.flights[i], Flat(s.flights[i + 1..]);
    FlightShrinks(s.flights, i, left);
    assert before + batch + after + Waiting(s) == before + batch + (after + Waiting(s));
    assert before + left + after + Waiting(s) == before + left + (after + Waiting(s));
    ShrunkIncreasing(before, batch, left, after + Waiting(s));
  }

  lemma ShrunkIncreasing(a: seq<Stored>, b: seq<Stored>, left: seq<Stored>, c: seq<Stored>)
    requires Increasing(a + b + c) && (left == [] || exists d :: left == Rest(b, d))
    ensures Increasing(a + left + c)
  {
    hide Increasing, AllBelow, Rest;
    IncreasingConcat(a + b, c);
    IncreasingConcat(a, b);
    RestIncreasing(b, left);
    IncreasingConcat(a, left);
    BelowFewer(a, b, left, c);
    IncreasingConcat(a + left, c);
  }

  lemma BelowFewer(a: seq<Stored>, b: seq<Stored>, left: seq<Stored>, c: seq<Stored>)
    requires forall x :: x in left ==> x in b
    ensures AllBelow(a, b) ==> AllBelow(a, left)
    ensures AllBelow(a + b, c) ==> AllBelow(a + left, c)
  {
  }

  lemma RestIncreasing(b: seq<Stored>, left: seq<Stored>)
    requires Increasing(b) && (left == [] || exists d :: left == Rest(b, d))
    ensures Increasing(left) && forall x :: x in left ==> x in b
  {
    if left != [] {
      var d :| left == Rest(b, d);
      FilteredIncreasing(b, OffDay(d));
    }
  }

  lemma {:induction false} FilteredIncreasing(b: seq<Stored>, p: Stored -> bool)
    requires Increasing(b)
    ensures Increasing(Filter(b, p))
  {
    if b != [] {
      assert b == [b[0]] + b[1..];
      IncreasingConcat([b[0]], b[1..]);
      FilteredIncreasing(b[1..], p);
      IncreasingConcat([b[0]], Filter(b[1..], p));
    }
  }

  lemma WriteKeepsTidy(cfg: Config, s: State, i: nat, c: string)
    requires Tidy(cfg, s) && i < |s.flights|
    ensures Tidy(cfg, Step(cfg, s, Write(i, c)))
  {
    hide Fifo, Pipeline, Written, Day, Rest;
    var t := Step(cfg, s, Write(i, c));
    ShrinkingKeepsFifo(s, i, Rest(s.flights[i], c));
    FifoIgnores(s.(flights := t.flights), t);
    forall d ensures multiset(Pipeline(t, d)) + Gone(t, d) == multiset(Day(t.memory, d)) {
      WriteMovesNothingElse(cfg, s, i, c, d);
      assert multiset(Pipeline(s, d)) + Gone(s, d) == multiset(Day(s.memory, d));
    }
  }

  lemma FifoIgnores(s: State, t: State)
    requires Fifo(s) && t.queue == s.queue && t.flights == s.flights && t.dropped == s.dropped
    ensures Fifo(t)
  {
  }

  /** What giving up the i-th batch does to one day. */
  lemma AbandonMoves(cfg: Config, s: State, i: nat, d: string)
    requires i < |s.flights|
    ensures var before, batch, after := Day(Flat(s.flights[..i]), d), Day(s.flights[i], d), Day(Flat(s.flights[i + 1..]), d);
      && Pipeline(s, d) == FileOf(s.files, d) + (before + batch + after) + Day(Waiting(s), d)
      && Pipeline(Step(cfg, s, Abandon(i)), d) == FileOf(s.files, d) + (before + after) + Day(Waiting(s), d)
  {
    hide Day, Flat, FileOf;
    PipelineSplit(s, i, [], d);
    var before, after := Day(Flat(s.flights[..i]), d), Day(Flat(s.flights[i + 1..]), d);
    assert NothingOn(d) == [] by { NothingOnIsNothing(d); }
    assert before + [] + after == before + after;
  }

  lemma AbandonLoses(cfg: Config, s: State, i: nat, d: string)
    requires i < |s.flights|
    ensures Gone(Step(cfg, s, Abandon(i)), d) == Gone(s, d) + multiset(Day(s.flights[i], d))
  {
    hide Day;
    DayConcat(s.lost, s.flights[i], d);
  }

  function NothingOn(d: string): seq<Stored> {
    Day([], d)
  }

  lemma NothingOnIsNothing(d: string)
    ensures NothingOn(d) == []
  {
  }

  lemma AbandonKeepsTidy(cfg: Config, s: State, i: nat)
    requires Tidy(cfg, s) && i < |s.flights|
    ensures Tidy(cfg, Step(cfg, s, Abandon(i)))
  {
    hide Fifo, Pipeline, Day, Gone;
    var t := Step(cfg, s, Abandon(i));
    ShrinkingKeepsFifo(s, i, []);
    FifoIgnores(s.(flights := t.flights), t);
    forall d ensures multiset(Pipeline(t, d)) + Gone(t, d) == multiset(Day(t.memory, d)) {
      AbandonConserves(cfg, s, i, d);
      assert multiset(Pipeline(s, d)) + Gone(s, d) == multiset(Day(s.memory, d));
    }
  }

  lemma AbandonConserves(cfg: Config, s: State, i: nat, d: string)
    requires i < |s.flights|
    ensures var t := Step(cfg, s, Abandon(i));
      multiset(Pipeline(t, d)) + Gone(t, d) == multiset(Pipeline(s, d)) + Gone(s, d)
  {
    hide Day, Step, Pipeline, FileOf, Gone;
    AbandonMoves(cfg, s, i, d);
    AbandonLoses(cfg, s, i, d);
  }

  lemma IncreasingWithout(a: seq<Stored>, b: seq<Stored>, c: seq<Stored>)
    ensures Increasing(a + b + c) ==> Increasing(a + c)
  {
    hide Increasing;
    IncreasingConcat(a + b, c);
    IncreasingConcat(a, b);
    IncreasingConcat(a, c);
  }

  lemma StepKeepsTidy(cfg: Config, s: State, op: Op)
    requires Tidy(cfg, s)
    ensures Tidy(cfg, Step(cfg, s, op))
  {
    hide Tidy;
    match op
    case Log(e, draw, loop, stored) =>
      if Sampled(cfg, draw) {
        if s.queue.None? && !loop { SyncKeepsTidy(cfg, s, e, stored); } else { EnqueueKeepsTidy(cfg, s, e); }
      }
    case SyncLog(e, stored) => SyncKeepsTidy(cfg, s, e, stored);
    case Drain => DrainKeepsTidy(cfg, s);
    case Write(i, c) => if i < |s.flights| { WriteKeepsTidy(cfg, s, i, c); }
    case Abandon(i) => if i < |s.flights| { AbandonKeepsTidy(cfg, s, i); }
  }

  lemma {:induction false} RunKeepsTidy(cfg: Config, s: State, ops: seq<Op>)
    requires Tidy(cfg, s)
    ensures Tidy(cfg, Run(cfg, s, ops))
    decreases |ops|
  {
    if ops != [] {
      hide Tidy, Step;
      StepKeepsTidy(cfg, s, ops[0]);
      RunKeepsTidy(cfg, Step(cfg, s, ops[0]), ops[1..]);
    }
  }

  lemma StartIsTidy(cfg: Config)
    ensures Tidy(cfg, START) && InOrder(START)
  {
    assert forall d :: Pipeline(START, d) == [];
  }

  /** In every run, in any order of writes: for each day, the written, taken, queued, dropped and lost entries make up
      the logged ones; the dropped are older than the queued; the queue respects its bound. */
  lemma {:induction false} EntriesAreConserved(cfg: Config, ops: seq<Op>, d: string)
    ensures var s := Run(cfg, START, ops);
      && multiset(FileOf(s.files, d)) + multiset(Day(Flat(s.flights), d)) + multiset(Day(Waiting(s), d))
         + multiset(Day(s.dropped, d)) + multiset(Day(s.lost, d)) == multiset(Day(s.memory, d))
      && AllBelow(s.dropped, Waiting(s))
      && (0 < cfg.queueMaxSize ==> |Waiting(s)| <= cfg.queueMaxSize)
  {
    hide Day, Run, Increasing, AllBelow, Flat;
    StartIsTidy(cfg);
    RunKeepsTidy(cfg, START, ops);
    var s := Run(cfg, START, ops);
    assert multiset(Pipeline(s, d)) + Gone(s, d) == multiset(Day(s.memory, d));
  }

  function Accepted(cfg: Config, ops: seq<Op>): seq<Entry> {
    if ops == [] then []
    else
      (match ops[0]
       case Log(e, draw, _, _) => if Sampled(cfg, draw) then [e] else []
       case SyncLog(e, _) => if cfg.enabled then [e] else []
       case _ => [])
      + Accepted(cfg, ops[1..])
  }

  /** Memory lists exactly the accepted entries, in the order they were logged. */
  lemma {:induction false} MemoryIsWhatWasAccepted(cfg: Config, s: State, ops: seq<Op>)
    ensures var after := Run(cfg, s, ops).memory;
      |after| == |s.memory| + |Accepted(cfg, ops)| && s.memory <= after
      && forall k :: 0 <= k < |Accepted(cfg, ops)| ==> after[|s.memory| + k].entry == Accepted(cfg, ops)[k]
    decreases |ops|
  {
    if ops != [] {
      var t := Step(cfg, s, ops[0]);
      MemoryIsWhatWasAccepted(cfg, t, ops[1..]);
      assert s.memory <= t.memory;
      var more := Accepted(cfg, ops);
      assert t.memory != s.memory ==> more == [t.memory[|s.memory|].entry] + Accepted(cfg, ops[1..]);
    }
  }

  // ----- the order inside a day's file -----

  ghost predicate InOrder(s: State) {
    forall d :: Increasing(Pipeline(s, d))
  }

  /** No day of a batch is written while an earlier batch still holds an entry of that day, and nothing is written
      synchronously while an entry of its day is pending. */
  predicate Orderly(cfg: Config, s: State, op: Op) {
    match op
    case Log(_, _, _, _) => true
    case SyncLog(e, stored) =>
      cfg.enabled && stored ==> forall x :: x in Flat(s.flights) + Waiting(s) ==> x.entry.day != e.day
    case Drain => true
    case Write(i, d) => i < |s.flights| ==> Day(Flat(s.flights[..i]), d) == [] || Day(s.flights[i], d) == []
    case Abandon(_) => true
  }

  lemma SyncOrder(cfg: Config, s: State, e: Entry)
    requires Tidy(cfg, s) && InOrder(s)
    ensures InOrder(SyncStored(Remember(s, e), Stored(|s.memory|, e), true)) <==>
      forall x :: x in Flat(s.flights) + Waiting(s) ==> x.entry.day != e.day
  {
    var x := Stored(|s.memory|, e);
    var t := Remember(s, e).(files := AppendOne(s.files, x));
    var pending := Flat(s.flights) + Waiting(s);
    hide Tidy, Day, Increasing, AllBelow, Flat;
    forall d ensures Increasing(Pipeline(t, d)) <==> Day(pending, d) == [] || Day([x], d) == [] {
      SyncOrderOn(cfg, s, x, d);
    }
    var today := e.day;
    OneDay(x, today);
    if y :| y in pending && y.entry.day == today {
      HasDay(pending, y);
      assert !Increasing(Pipeline(t, today));
    } else {
      forall d ensures Increasing(Pipeline(t, d)) {
        if d == today { NoneOnDay(pending, d); } else { OneDay(x, d); }
      }
    }
  }

  lemma OneDay(x: Stored, d: string)
    ensures Day([x], d) == if x.entry.day == d then [x] else []
  {
    assert [x][1..] == [];
  }

  lemma HasDay(s: seq<Stored>, y: Stored)
    requires y in s
    ensures y in Day(s, y.entry.day)
  {
  }

  lemma NoneOnDay(s: seq<Stored>, d: string)
    requires forall y :: y in s ==> y.entry.day != d
    ensures Day(s, d) == []
  {
    FilterNone(s, OnDay(d));
  }

  lemma SyncOrderOn(cfg: Config, s: State, x: Stored, d: string)
    requires Tidy(cfg, s) && InOrder(s) && x.at == |s.memory|
    ensures var t := Remember(s, x.entry).(files := AppendOne(s.files, x));
      Increasing(Pipeline(t, d)) <==> Day(Flat(s.flights) + Waiting(s), d) == [] || Day([x], d) == []
  {
    hide Tidy, Day, Increasing, Flat, AllBelow, AppendOne, FileOf;
    var file, late, one := FileOf(s.files, d), Day(Flat(s.flights) + Waiting(s), d), Day([x], d);
    DayConcat(Flat(s.flights), Waiting(s), d);
    AppendedFile(s.files, x, d);
    assert Pipeline(s, d) == file + late;
    assert FileOf(s.files, d) + one + Day(Flat(s.flights), d) + Day(Waiting(s), d) == file + one + late;
    PipelineIsOlder(cfg, s, x, d);
    Jump(file, one, late);
  }

  lemma PipelineIsOlder(cfg: Config, s: State, x: Stored, d: string)
    requires Tidy(cfg, s) && x.at == |s.memory|
    ensures (forall y :: y in Pipeline(s, d) ==> y.at < x.at)
    ensures AllBelow(Pipeline(s, d), Day([x], d)) && Increasing(Day([x], d))
  {
    forall y | y in Pipeline(s, d) ensures y.at < x.at {
      PipelineIsOfDay(cfg, s, y, d);
    }
    OneDay(x, d);
  }

  lemma PipelineIsOfDay(cfg: Config, s: State, y: Stored, d: string)
    requires Tidy(cfg, s) && y in Pipeline(s, d)
    ensures y.entry.day == d && y.at < |s.memory| && s.memory[y.at] == y
  {
    assert y in multiset(Pipeline(s, d)) + Gone(s, d);
    assert y in Day(s.memory, d);
    HeldWasLogged(s, y);
  }

  /** A newer stretch put before an older one keeps the order exactly when one of the two is empty. */
  lemma Jump(file: seq<Stored>, newer: seq<Stored>, older: seq<Stored>)
    requires Increasing(file + older) && Increasing(newer) && AllBelow(file + older, newer)
    ensures Increasing(file + newer + older) <==> newer == [] || older == []
  {
    if newer == [] {
      assert file + newer + older == file + older;
    } else if older == [] {
      assert file + newer + older == file + newer && file + older == file;
      IncreasingConcat(file, newer);
    } else {
      IncreasingConcat(file + newer, older);
      assert newer[0] in file + newer && older[0] in file + older;
    }
  }

  lemma EnqueueOrder(cfg: Config, s: State, x: Stored, d: string)
    requires Tidy(cfg, s) && InOrder(s) && x.at == |s.memory|
    ensures Increasing(Pipeline(Enqueue(cfg, Remember(s, x.entry), x), d))
  {
    hide Tidy, Day, Increasing, Flat, AllBelow, FileOf;
    var q := Waiting(s);
    var rest := if Full(cfg, q) then q[1..] else q;
    var head := FileOf(s.files, d) + Day(Flat(s.flights), d);
    DayConcat(rest, [x], d);
    assert Pipeline(Enqueue(cfg, Remember(s, x.entry), x), d) == head + Day(rest, d) + Day([x], d);
    if Full(cfg, q) {
      assert q == [q[0]] + rest;
      DayConcat([q[0]], rest, d);
      assert Pipeline(s, d) == head + Day([q[0]], d) + Day(rest, d);
      IncreasingWithout(head, Day([q[0]], d), Day(rest, d));
    } else {
      assert Pipeline(s, d) == head + Day(rest, d);
    }
    PipelineIsOlder(cfg, s, x, d);
    LaterOne(head + Day(rest, d), x, d);
  }

  lemma LaterOne(early: seq<Stored>, x: Stored, d: string)
    requires Increasing(early) && forall y :: y in early ==> y.at < x.at
    ensures Increasing(early + Day([x], d))
  {
    OneDay(x, d);
    IncreasingConcat(early, Day([x], d));
  }

  lemma WriteOrderOn(cfg: Config, s: State, i: nat, d: string)
    requires Tidy(cfg, s) && InOrder(s) && i < |s.flights|
    ensures Increasing(Pipeline(Step(cfg, s, Write(i, d)), d)) <==>
      Day(Flat(s.flights[..i]), d) == [] || Day(s.flights[i], d) == []
  {
    hide Tidy, Pipeline, Day, Increasing, AllBelow, Flat, Written, FileOf, Step;
    WriteMoves(cfg, s, i, d, d);
    assert Increasing(Pipeline(s, d));
    var file, older, newer := FileOf(s.files, d), Day(Flat(s.flights[..i]), d), Day(s.flights[i], d);
    var after, queued := Day(Flat(s.flights[i + 1..]), d), Day(Waiting(s), d);
    assert file + (older + newer + after) + queued == file + older + newer + (after + queued);
    assert file + newer + (older + after) + queued == file + newer + older + (after + queued);
    Swap(file, older, newer, after + queued);
  }

  lemma Swap(file: seq<Stored>, older: seq<Stored>, newer: seq<Stored>, tail: seq<Stored>)
    requires Increasing(file + older + newer + tail)
    ensures Increasing(file + newer + older + tail) <==> older == [] || newer == []
  {
    hide Increasing, AllBelow;
    IncreasingConcat(file + older + newer, tail);
    IncreasingConcat(file + newer + older, tail);
    IncreasingConcat(file + older, newer);
    Jump(file, newer, older);
    assert forall x :: x in file + newer + older ==> x in file + older + newer;
    SameMembersBelow(file + older + newer, file + newer + older, tail);
  }

  lemma SameMembersBelow(a: seq<Stored>, b: seq<Stored>, tail: seq<Stored>)
    requires AllBelow(a, tail) && forall x :: x in b ==> x in a
    ensures AllBelow(b, tail)
  {
  }

  lemma WriteOrder(cfg: Config, s: State, i: nat, d: string)
    requires Tidy(cfg, s) && InOrder(s) && i < |s.flights|
    ensures InOrder(Step(cfg, s, Write(i, d))) <==> Day(Flat(s.flights[..i]), d) == [] || Day(s.flights[i], d) == []
  {
    hide Tidy, Day, Increasing, Flat, Pipeline, Step;
    var t := Step(cfg, s, Write(i, d));
    WriteOrderOn(cfg, s, i, d);
    forall e | e != d ensures Increasing(Pipeline(t, e)) {
      WriteMoves(cfg, s, i, d, e);
      assert Increasing(Pipeline(s, e));
    }
  }

  lemma AbandonOrder(cfg: Config, s: State, i: nat)
    requires InOrder(s) && i < |s.flights|
    ensures InOrder(Step(cfg, s, Abandon(i)))
  {
    hide Day, Increasing, Flat, Pipeline, Step, FileOf, Gone;
    forall d ensures Increasing(Pipeline(Step(cfg, s, Abandon(i)), d)) {
      AbandonMoves(cfg, s, i, d);
      assert Increasing(Pipeline(s, d));
      var file, before, batch, after, rest :=
        FileOf(s.files, d), Day(Flat(s.flights[..i]), d), Day(s.flights[i], d), Day(Flat(s.flights[i + 1..]), d), Day(Waiting(s), d);
      IncreasingWithout(file + before, batch, after + rest);
      assert file + (before + batch + after) + rest == file + before + batch + (after + rest);
      assert file + (before + after) + rest == file + before + (after + rest);
    }
  }

  /** An entry the disk refuses changes no day's order. */
  lemma LostKeepsOrder(s: State, e: Entry)
    requires InOrder(s)
    ensures InOrder(SyncStored(Remember(s, e), Stored(|s.memory|, e), false))
  {
    hide Increasing, Day, Flat, FileOf;
    var t := SyncStored(Remember(s, e), Stored(|s.memory|, e), false);
    forall d ensures Increasing(Pipeline(t, d)) {
      assert Pipeline(t, d) == Pipeline(s, d);
    }
  }

  /** Exactly the orderly steps keep every day's pipeline in logging order. */
  lemma StepOrder(cfg: Config, s: State, op: Op)
    requires Tidy(cfg, s) && InOrder(s)
    ensures InOrder(Step(cfg, s, op)) <==> Orderly(cfg, s, op)
  {
    match op
    case Log(e, draw, loop, stored) =>
      if Sampled(cfg, draw) {
        if s.queue.None? && !loop {
          NothingPending(s);
          if stored { SyncOrder(cfg, s, e); } else { LostKeepsOrder(s, e); }
        } else {
          forall d ensures Increasing(Pipeline(Step(cfg, s, op), d)) {
            EnqueueOrder(cfg, s, Stored(|s.memory|, e), d);
          }
        }
      }
    case SyncLog(e, stored) =>
      if cfg.enabled {
        if stored { SyncOrder(cfg, s, e); } else { LostKeepsOrder(s, e); }
      }
    case Drain => DrainKeepsPipeline(cfg, s);
    case Write(i, d) => if i < |s.flights| { WriteOrder(cfg, s, i, d); }
    case Abandon(i) => if i < |s.flights| { AbandonOrder(cfg, s, i); }
  }

  lemma NothingPending(s: State)
    requires Fifo(s) && s.queue.None?
    ensures Flat(s.flights) + Waiting(s) == []
  {
  }

  predicate OrderlyRun(cfg: Config, s: State, ops: seq<Op>)
    decreases |ops|
  {
    ops != [] ==> Orderly(cfg, s, ops[0]) && OrderlyRun(cfg, Step(cfg, s, ops[0]), ops[1..])
  }

  ghost predicate AlwaysInOrder(cfg: Config, s: State, ops: seq<Op>)
    decreases |ops|
  {
    InOrder(s) && (ops != [] ==> AlwaysInOrder(cfg, Step(cfg, s, ops[0]), ops[1..]))
  }

  lemma {:induction false} OrderFrom(cfg: Config, s: State, ops: seq<Op>)
    requires Tidy(cfg, s) && InOrder(s)
    ensures AlwaysInOrder(cfg, s, ops) <==> OrderlyRun(cfg, s, ops)
    decreases |ops|
  {
    if ops != [] {
      hide Tidy, InOrder, Step, Orderly;
      var t := Step(cfg, s, ops[0]);
      StepOrder(cfg, s, ops[0]);
      StepKeepsTidy(cfg, s, ops[0]);
      if InOrder(t) { OrderFrom(cfg, t, ops[1..]); }
    }
  }

  /** Files and pending entries stay in logging order throughout a run if and only if every step is orderly. */
  lemma {:induction false} OrderIsKeptExactly(cfg: Config, ops: seq<Op>)
    ensures AlwaysInOrder(cfg, START, ops) <==> OrderlyRun(cfg, START, ops)
  {
    StartIsTidy(cfg);
    OrderFrom(cfg, START, ops);
  }

  lemma {:induction false} AlwaysAtEnd(cfg: Config, s: State, ops: seq<Op>)
    requires AlwaysInOrder(cfg, s, ops)
    ensures InOrder(Run(cfg, s, ops))
    decreases |ops|
  {
    if ops != [] { AlwaysAtEnd(cfg, Step(cfg, s, ops[0]), ops[1..]); }
  }

  /** After an orderly run each day's file is an order-preserving subsequence of the entries logged that day. */
  lemma {:induction false} FileIsSubsequence(cfg: Config, ops: seq<Op>, d: string)
    requires OrderlyRun(cfg, START, ops)
    ensures var s := Run(cfg, START, ops); var file := FileOf(s.files, d);
      && (forall k :: 0 <= k < |file| ==>
           file[k].entry.day == d && file[k].at < |s.memory| && s.memory[file[k].at] == file[k])
      && (forall j, k :: 0 <= j < k < |file| ==> file[j].at < file[k].at)
  {
    hide Run, Tidy, OrderlyRun, Flat, Day;
    StartIsTidy(cfg);
    OrderIsKeptExactly(cfg, ops);
    RunKeepsTidy(cfg, START, ops);
    AlwaysAtEnd(cfg, START, ops);
    var s := Run(cfg, START, ops);
    var file := FileOf(s.files, d);
    assert Increasing(Pipeline(s, d)) && file <= Pipeline(s, d);
    assert forall k :: 0 <= k < |file| ==> file[k] == Pipeline(s, d)[k];
    forall k | 0 <= k < |file|
      ensures file[k].entry.day == d && file[k].at < |s.memory| && s.memory[file[k].at] == file[k]
    {
      assert file[k] in Pipeline(s, d);
      PipelineIsOfDay(cfg, s, file[k], d);
    }
  }

  /** One flush at a time and no synchronous writes: a batch is taken only when nothing of another is left. */
  predicate OneFlusher(cfg: Config, s: State, ops: seq<Op>)
    decreases |ops|
  {
    ops != [] ==>
      && !ops[0].SyncLog?
      && (ops[0].Drain? ==> Flat(s.flights) == [])
      && OneFlusher(cfg, Step(cfg, s, ops[0]), ops[1..])
  }

  /** At most the last batch has anything left. */
  ghost predicate OnlyLastLeft(s: State) {
    forall j :: 0 <= j < |s.flights| - 1 ==> s.flights[j] == []
  }

  lemma {:induction false} NothingFlat(batches: seq<seq<Stored>>)
    ensures Flat(batches) == [] <==> forall j :: 0 <= j < |batches| ==> batches[j] == []
  {
    if batches != [] {
      NothingFlat(batches[1..]);
      assert forall j :: 0 < j < |batches| ==> batches[j] == batches[1..][j - 1];
      assert batches[0] + Flat(batches[1..]) == [] <==> batches[0] == [] && Flat(batches[1..]) == [];
    }
  }

  lemma OneFlusherStep(cfg: Config, s: State, op: Op)
    requires OnlyLastLeft(s) && !op.SyncLog? && (op.Drain? ==> Flat(s.flights) == [])
    ensures Orderly(cfg, s, op) && OnlyLastLeft(Step(cfg, s, op))
  {
    hide Written, Day, Rest;
    NothingFlat(s.flights);
    if op.Write? && op.i < |s.flights| {
      NothingFlat(s.flights[..op.i]);
      assert NothingOn(op.d) == [] by { NothingOnIsNothing(op.d); }
      if op.i < |s.flights| - 1 { NothingRests(op.d); }
    }
  }

  lemma NothingRests(d: string)
    ensures Rest([], d) == [] && Day([], d) == []
  {
  }

  lemma {:induction false} OneFlusherIsOrderly(cfg: Config, s: State, ops: seq<Op>)
    requires OnlyLastLeft(s) && OneFlusher(cfg, s, ops)
    ensures OrderlyRun(cfg, s, ops)
    decreases |ops|
  {
    if ops != [] {
      hide OnlyLastLeft, Orderly, Step;
      OneFlusherStep(cfg, s, ops[0]);
      OneFlusherIsOrderly(cfg, Step(cfg, s, ops[0]), ops[1..]);
    }
  }

  /** Two overlapping flushes reorder a file: the second batch is written first. */
  lemma OverlappingFlushesReorder(cfg: Config, a: string, b: string, d: string)
    requires cfg.enabled && cfg.samplingRate == 1.0 && cfg.batchSize == 1 && cfg.queueMaxSize == 10000
    ensures var ops := [Log(Entry(d, a), 0.0, true, true), Log(Entry(d, b), 0.0, true, true), Drain, Drain,
                        Write(1, d), Write(0, d)];
      FileOf(Run(cfg, START, ops).files, d) == [Stored(1, Entry(d, b)), Stored(0, Entry(d, a))]
  {
    hide *;
    var x, y := Stored(0, Entry(d, a)), Stored(1, Entry(d, b));
    var s1, s2, s3, s4 := TwoTaken(cfg, x, y);
    var s5 := WrittenInReverse(cfg, x, y, d);
    RunSix(cfg, Log(x.entry, 0.0, true, true), Log(y.entry, 0.0, true, true), Drain, Drain, Write(1, d), Write(0, d),
           s1, s2, s3, s4, s5);
  }

  lemma WrittenInReverse(cfg: Config, x: Stored, y: Stored, d: string) returns (s5: State)
    requires x.entry.day == d && y.entry.day == d
    ensures s5 == Step(cfg, State([x, y], Some([]), [[x], [y]], map[], [], []), Write(1, d))
    ensures FileOf(Step(cfg, s5, Write(0, d)).files, d) == [y, x]
  {
    hide Written, Day, Rest;
    var s4 := State([x, y], Some([]), [[x], [y]], map[], [], []);
    s5 := Step(cfg, s4, Write(1, d));
    assert s5.flights[0] == [x];
    OneDay(x, d);
    OneDay(y, d);
    WrittenFile(map[], [y], d);
    WrittenFile(s5.files, [x], d);
  }

  lemma TwoTaken(cfg: Config, x: Stored, y: Stored) returns (s1: State, s2: State, s3: State, s4: State)
    requires cfg.enabled && cfg.samplingRate == 1.0 && cfg.batchSize == 1 && cfg.queueMaxSize == 10000
    requires x.at == 0 && y.at == 1
    ensures Step(cfg, START, Log(x.entry, 0.0, true, true)) == s1 && Step(cfg, s1, Log(y.entry, 0.0, true, true)) == s2
    ensures Step(cfg, s2, Drain) == s3 && Step(cfg, s3, Drain) == s4
    ensures s4 == State([x, y], Some([]), [[x], [y]], map[], [], [])
  {
    s1 := State([x], Some([x]), [], map[], [], []);
    s2 := State([x, y], Some([x, y]), [], map[], [], []);
    s3 := State([x, y], Some([y]), [[x]], map[], [], []);
    s4 := State([x, y], Some([]), [[x], [y]], map[], [], []);
    assert [] + [x] == [x] && Step(cfg, START, Log(x.entry, 0.0, true, true)) == s1;
    assert [x] + [y] == [x, y] && Step(cfg, s1, Log(y.entry, 0.0, true, true)) == s2;
    assert [x, y][..1] == [x] && [x, y][1..] == [y] && [] + [[x]] == [[x]];
    assert Step(cfg, s2, Drain) == s3;
    assert [y][..1] == [y] && [y][1..] == [] && [[x]] + [[y]] == [[x], [y]];
    assert Step(cfg, s3, Drain) == s4;
  }

  lemma RunSix(cfg: Config, o1: Op, o2: Op, o3: Op, o4: Op, o5: Op, o6: Op,
               s1: State, s2: State, s3: State, s4: State, s5: State)
    requires Step(cfg, START, o1) == s1 && Step(cfg, s1, o2) == s2 && Step(cfg, s2, o3) == s3
    requires Step(cfg, s3, o4) == s4 && Step(cfg, s4, o5) == s5
    ensures Run(cfg, START, [o1, o2, o3, o4, o5, o6]) == Step(cfg, s5, o6)
  {
    hide Step;
    assert [o1, o2, o3, o4, o5, o6][1..] == [o2, o3, o4, o5, o6] && [o2, o3, o4, o5, o6][1..] == [o3, o4, o5, o6];
    assert [o3, o4, o5, o6][1..] == [o4, o5, o6] && [o4, o5, o6][1..] == [o5, o6] && [o5, o6][1..] == [o6];
    assert Run(cfg, s4, [o5, o6]) == Run(cfg, s5, [o6]) == Step(cfg, s5, o6);
    assert Run(cfg, s2, [o3, o4, o5, o6]) == Run(cfg, s4, [o5, o6]);
  }
}
