/** When the day files themselves stay in logging order: write by write, and in every continuation. */
module AuditFiles {
  import opened Seqs
  import opened AuditQueue
  import opened AuditRuns

  ghost predicate FilesInOrder(s: State) {
    forall d :: Increasing(FileOf(s.files, d))
  }

  // ----- the files of one run -----

  /** The entries about to be written are all younger than those in their file. */
  ghost predicate Younger(s: State, op: Op) {
    op.Write? && op.i < |s.flights| ==> AllBelow(FileOf(s.files, op.d), Day(s.flights[op.i], op.d))
  }

  ghost predicate YoungerRun(cfg: Config, s: State, ops: seq<Op>)
    decreases |ops|
  {
    ops != [] ==> Younger(s, ops[0]) && YoungerRun(cfg, Step(cfg, s, ops[0]), ops[1..])
  }

  ghost predicate FilesAlwaysInOrder(cfg: Config, s: State, ops: seq<Op>)
    decreases |ops|
  {
    FilesInOrder(s) && (ops != [] ==> FilesAlwaysInOrder(cfg, Step(cfg, s, ops[0]), ops[1..]))
  }

  /** A single entry is the youngest of all when it is written. */
  lemma SyncKeepsFiles(cfg: Config, s: State, e: Entry, stored: bool)
    requires Tidy(cfg, s) && FilesInOrder(s)
    ensures FilesInOrder(SyncStored(Remember(s, e), Stored(|s.memory|, e), stored))
  {
    hide Tidy, Day, Increasing;
    var x := Stored(|s.memory|, e);
    var t := SyncStored(Remember(s, e), x, stored);
    forall d ensures Increasing(FileOf(t.files, d)) {
      assert Increasing(FileOf(s.files, d));
      if stored {
        AppendedFile(s.files, x, d);
        FileIsOlder(cfg, s, x, d);
        LaterOne(FileOf(s.files, d), x, d);
      }
    }
  }

  lemma FileIsOlder(cfg: Config, s: State, x: Stored, d: string)
    requires Tidy(cfg, s) && x.at == |s.memory|
    ensures forall y :: y in FileOf(s.files, d) ==> y.at < x.at
  {
    hide Tidy, Day, Flat, FileOf;
    PipelineIsOlder(cfg, s, x, d);
    assert forall y :: y in FileOf(s.files, d) ==> y in Pipeline(s, d);
  }

  lemma WriteKeepsFiles(cfg: Config, s: State, i: nat, c: string)
    requires Tidy(cfg, s) && FilesInOrder(s) && i < |s.flights|
    ensures FilesInOrder(Step(cfg, s, Write(i, c))) <==> AllBelow(FileOf(s.files, c), Day(s.flights[i], c))
  {
    hide Tidy, Day, Increasing, AllBelow, Written;
    var t := Step(cfg, s, Write(i, c));
    forall d ensures Increasing(FileOf(t.files, d)) <==>
                     d != c || AllBelow(FileOf(s.files, c), Day(s.flights[i], c))
    {
      assert Increasing(FileOf(s.files, d));
      WrittenFile(s.files, Day(s.flights[i], c), d);
      DayOfDay(s.flights[i], c, d);
      if d == c {
        BatchIncreasing(cfg, s, i, c);
        IncreasingConcat(FileOf(s.files, c), Day(s.flights[i], c));
      } else {
        assert FileOf(s.files, d) + [] == FileOf(s.files, d);
      }
    }
  }

  lemma BatchIncreasing(cfg: Config, s: State, i: nat, d: string)
    requires Tidy(cfg, s) && i < |s.flights|
    ensures Increasing(Day(s.flights[i], d))
  {
    hide Increasing, Conserved, Stamped, Bounded, AllBelow, Flat;
    var before, after := Flat(s.flights[..i]), Flat(s.flights[i + 1..]);
    FlightsSplit(s.flights, i);
    IncreasingConcat(before + s.flights[i] + after, Waiting(s));
    IncreasingConcat(before + s.flights[i], after);
    IncreasingConcat(before, s.flights[i]);
    FilteredIncreasing(s.flights[i], OnDay(d));
  }

  lemma StepKeepsFiles(cfg: Config, s: State, op: Op)
    requires Tidy(cfg, s) && FilesInOrder(s)
    ensures FilesInOrder(Step(cfg, s, op)) <==> Younger(s, op)
  {
    hide Tidy, FilesInOrder, AllBelow;
    match op
    case Log(e, draw, loop, stored) =>
      if Sampled(cfg, draw) {
        if s.queue.None? && !loop { SyncKeepsFiles(cfg, s, e, stored); } else { SameFiles(s, Step(cfg, s, op)); }
      }
    case SyncLog(e, stored) => SyncKeepsFiles(cfg, s, e, stored);
    case Drain => SameFiles(s, Step(cfg, s, op));
    case Write(i, c) => if i < |s.flights| { WriteKeepsFiles(cfg, s, i, c); }
    case Abandon(i) => SameFiles(s, Step(cfg, s, op));
  }

  lemma SameFiles(s: State, t: State)
    requires FilesInOrder(s) && t.files == s.files
    ensures FilesInOrder(t)
  {
  }

  lemma {:induction false} FilesFrom(cfg: Config, s: State, ops: seq<Op>)
    requires Tidy(cfg, s) && FilesInOrder(s)
    ensures FilesAlwaysInOrder(cfg, s, ops) <==> YoungerRun(cfg, s, ops)
    decreases |ops|
  {
    if ops != [] {
      hide Tidy, FilesInOrder, Step, Younger;
      var t := Step(cfg, s, ops[0]);
      StepKeepsFiles(cfg, s, ops[0]);
      StepKeepsTidy(cfg, s, ops[0]);
      if FilesInOrder(t) { FilesFrom(cfg, t, ops[1..]); }
    }
  }

  /** Every day's file is in logging order throughout a run if and only if no write appends an entry that is older
      than one already in its file. */
  lemma {:induction false} FilesKeepOrderExactly(cfg: Config, ops: seq<Op>)
    ensures FilesAlwaysInOrder(cfg, START, ops) <==> YoungerRun(cfg, START, ops)
  {
    hide Tidy;
    StartIsTidy(cfg);
    FilesFrom(cfg, START, ops);
  }

  lemma {:induction false} NothingIsTaken(cfg: Config, s: State, ops: seq<Op>)
    requires cfg.batchSize <= 0 && s.flights == []
    ensures YoungerRun(cfg, s, ops)
    decreases |ops|
  {
    if ops != [] {
      NothingIsTaken(cfg, Step(cfg, s, ops[0]), ops[1..]);
    }
  }

  /** Without a positive batch size nothing leaves the queue, and what is written directly is in order. */
  lemma {:induction false} WithoutBatchesAlwaysInOrder(cfg: Config, ops: seq<Op>)
    requires cfg.batchSize <= 0
    ensures FilesAlwaysInOrder(cfg, START, ops)
  {
    hide YoungerRun, FilesAlwaysInOrder;
    NothingIsTaken(cfg, START, ops);
    FilesKeepOrderExactly(cfg, ops);
  }

  // ----- writing a day out -----

  function Drains(n: nat): seq<Op> {
    seq(n, i => Drain)
  }

  function Writes(n: nat, d: string): seq<Op> {
    seq(n, i requires 0 <= i < n => Write(i, d))
  }

  lemma {:induction false} RunConcat(cfg: Config, s: State, a: seq<Op>, b: seq<Op>)
    ensures Run(cfg, s, a + b) == Run(cfg, Run(cfg, s, a), b)
    ensures OrderlyRun(cfg, s, a + b) <==> OrderlyRun(cfg, s, a) && OrderlyRun(cfg, Run(cfg, s, a), b)
    decreases |a|
  {
    if a == [] {
      assert a + b == b;
    } else {
      hide Step, Orderly;
      assert (a + b)[1..] == a[1..] + b;
      RunConcat(cfg, Step(cfg, s, a[0]), a[1..], b);
    }
  }

  lemma RunOne(cfg: Config, s: State, op: Op)
    ensures Run(cfg, s, [op]) == Step(cfg, s, op)
    ensures OrderlyRun(cfg, s, [op]) <==> Orderly(cfg, s, op)
  {
    hide Step, Orderly;
    assert [op][1..] == [];
  }

  lemma {:induction false} DrainsEmptyTheQueue(cfg: Config, s: State, n: nat)
    requires cfg.batchSize > 0 && |Waiting(s)| <= n
    ensures var t := Run(cfg, s, Drains(n));
      Waiting(t) == [] && OrderlyRun(cfg, s, Drains(n)) && forall d :: Pipeline(t, d) == Pipeline(s, d)
    decreases n
  {
    hide Pipeline;
    if n > 0 {
      assert Drains(n)[1..] == Drains(n - 1);
      DrainKeepsPipeline(cfg, s);
      DrainsEmptyTheQueue(cfg, Step(cfg, s, Drain), n - 1);
    }
  }

  /** Batch by batch, oldest first, day d moves to its file. */
  lemma {:induction false} WritesMoveTheDay(cfg: Config, s: State, n: nat, d: string)
    requires n <= |s.flights|
    ensures var t := Run(cfg, s, Writes(n, d));
      && OrderlyRun(cfg, s, Writes(n, d)) && Pipeline(t, d) == Pipeline(s, d)
      && |t.flights| == |s.flights| && Waiting(t) == Waiting(s)
      && Day(Flat(t.flights[..n]), d) == []
    decreases n
  {
    hide Day, Flat, Rest, Written, Pipeline;
    if n == 0 {
      NothingYet(s, d);
    } else {
      var t := Run(cfg, s, Writes(n - 1, d));
      WritesMoveTheDay(cfg, s, n - 1, d);
      assert Writes(n, d) == Writes(n - 1, d) + [Write(n - 1, d)];
      RunConcat(cfg, s, Writes(n - 1, d), [Write(n - 1, d)]);
      RunOne(cfg, t, Write(n - 1, d));
      NextBatch(cfg, t, n - 1, d);
    }
  }

  lemma NothingYet(s: State, d: string)
    ensures Day(Flat(s.flights[..0]), d) == []
  {
  }

  lemma NextBatch(cfg: Config, t: State, i: nat, d: string)
    requires i < |t.flights| && Day(Flat(t.flights[..i]), d) == []
    ensures var u := Step(cfg, t, Write(i, d));
      && Orderly(cfg, t, Write(i, d)) && Pipeline(u, d) == Pipeline(t, d) && Day(Flat(u.flights[..i + 1]), d) == []
  {
    hide Day, Flat, Rest, Written;
    var u := Step(cfg, t, Write(i, d));
    WriteMoves(cfg, t, i, d, d);
    var file, batch, after, rest :=
      FileOf(t.files, d), Day(t.flights[i], d), Day(Flat(t.flights[i + 1..]), d), Day(Waiting(t), d);
    assert [] + batch + after == batch + after && [] + after == after;
    assert file + (batch + after) + rest == file + batch + after + rest;
    assert u.flights[..i + 1] == t.flights[..i] + [u.flights[i]];
    FlatConcat(t.flights[..i], [u.flights[i]]);
    FlatOne(u.flights[i]);
    DayConcat(Flat(t.flights[..i]), u.flights[i], d);
    DayOfDay(t.flights[i], d, d);
  }

  /** The queue drained and day d of every batch written, in order. */
  function Settling(cfg: Config, s: State, d: string): seq<Op> {
    var drains := Drains(|Waiting(s)|);
    drains + Writes(|Run(cfg, s, drains).flights|, d)
  }

  /** However many entries are pending, they reach the file, and it is then what was written, taken and queued. */
  lemma {:induction false} SettledFile(cfg: Config, s: State, d: string)
    requires cfg.batchSize > 0
    ensures OrderlyRun(cfg, s, Settling(cfg, s, d))
    ensures FileOf(Run(cfg, s, Settling(cfg, s, d)).files, d) == Pipeline(s, d)
  {
    hide Day, Flat, Run, OrderlyRun, Drains, Writes;
    var drains := Drains(|Waiting(s)|);
    var t := Run(cfg, s, drains);
    var writes := Writes(|t.flights|, d);
    DrainsEmptyTheQueue(cfg, s, |Waiting(s)|);
    WritesMoveTheDay(cfg, t, |t.flights|, d);
    RunConcat(cfg, s, drains, writes);
    var u := Run(cfg, t, writes);
    assert u.flights[..|t.flights|] == u.flights;
    assert NothingOn(d) == [] by { NothingOnIsNothing(d); }
    assert FileOf(u.files, d) + [] + [] == FileOf(u.files, d);
  }

  // ----- every continuation -----

  /** As long as no later step overtakes anything, every file stays in order. */
  ghost predicate StaysInOrder(cfg: Config, s: State) {
    forall more :: OrderlyRun(cfg, s, more) ==> FilesInOrder(Run(cfg, s, more))
  }

  lemma {:induction false} StaysInOrderExactly(cfg: Config, s: State)
    requires Tidy(cfg, s) && cfg.batchSize > 0
    ensures StaysInOrder(cfg, s) <==> InOrder(s)
  {
    hide Tidy, Increasing, OrderlyRun, Run, Pipeline, Settling;
    if InOrder(s) {
      forall more | OrderlyRun(cfg, s, more) ensures FilesInOrder(Run(cfg, s, more)) {
        OrderFrom(cfg, s, more);
        AlwaysAtEnd(cfg, s, more);
        FilesAhead(Run(cfg, s, more));
      }
    }
    if StaysInOrder(cfg, s) {
      forall d ensures Increasing(Pipeline(s, d)) {
        SettledFile(cfg, s, d);
        assert FilesInOrder(Run(cfg, s, Settling(cfg, s, d)));
      }
    }
  }

  lemma FilesAhead(s: State)
    requires InOrder(s)
    ensures FilesInOrder(s)
  {
    hide Day, Flat, FileOf, Increasing;
    forall d ensures Increasing(FileOf(s.files, d)) {
      assert Increasing(Pipeline(s, d));
      IncreasingConcat(FileOf(s.files, d) + Day(Flat(s.flights), d), Day(Waiting(s), d));
      IncreasingConcat(FileOf(s.files, d), Day(Flat(s.flights), d));
    }
  }

  /** A step leaves all files in order in every orderly continuation if and only if it is orderly itself. */
  lemma {:induction false} OrderlyStepsExactly(cfg: Config, s: State, op: Op)
    requires Tidy(cfg, s) && InOrder(s) && cfg.batchSize > 0
    ensures Orderly(cfg, s, op) <==> StaysInOrder(cfg, Step(cfg, s, op))
  {
    hide Tidy, InOrder, Orderly, StaysInOrder, Step;
    StepOrder(cfg, s, op);
    StepKeepsTidy(cfg, s, op);
    StaysInOrderExactly(cfg, Step(cfg, s, op));
  }

  ghost predicate AlwaysStaysInOrder(cfg: Config, s: State, ops: seq<Op>)
    decreases |ops|
  {
    StaysInOrder(cfg, s) && (ops != [] ==> AlwaysStaysInOrder(cfg, Step(cfg, s, ops[0]), ops[1..]))
  }

  lemma {:induction false} AlwaysStaysFrom(cfg: Config, s: State, ops: seq<Op>)
    requires Tidy(cfg, s) && cfg.batchSize > 0
    ensures AlwaysStaysInOrder(cfg, s, ops) <==> AlwaysInOrder(cfg, s, ops)
    decreases |ops|
  {
    hide Tidy, InOrder, StaysInOrder, Step;
    StaysInOrderExactly(cfg, s);
    if ops != [] {
      StepKeepsTidy(cfg, s, ops[0]);
      AlwaysStaysFrom(cfg, Step(cfg, s, ops[0]), ops[1..]);
    }
  }

  /** Files stay in logging order from every point of a run on, whatever follows in an orderly way, if and only if
      every step of the run is orderly. */
  lemma {:induction false} OrderlyRunsExactly(cfg: Config, ops: seq<Op>)
    requires cfg.batchSize > 0
    ensures OrderlyRun(cfg, START, ops) <==> AlwaysStaysInOrder(cfg, START, ops)
  {
    hide Tidy, InOrder, OrderlyRun, AlwaysInOrder, AlwaysStaysInOrder;
    StartIsTidy(cfg);
    OrderIsKeptExactly(cfg, ops);
    AlwaysStaysFrom(cfg, START, ops);
  }
}
