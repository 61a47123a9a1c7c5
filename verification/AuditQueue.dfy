/** The batched audit logger: a bounded queue that drops its oldest entry, drained in batches into day files. */
module AuditQueue {
  import opened Seqs

  datatype Entry = Entry(day: string, line: string)

  /** A logged entry object; `at` is its position among all logged ones and tells equal entries apart. */
  datatype Stored = Stored(at: nat, entry: Entry)

  datatype Config = Config(enabled: bool, samplingRate: real, batchSize: int, queueMaxSize: int)

  type Files = map<string, seq<Stored>>

  /** The logger's fields; what is left of each batch taken from the queue; every entry dropped so far, and every
      entry lost because the disk refused it. */
  datatype State = State(memory: seq<Stored>, queue: Option<seq<Stored>>, flights: seq<seq<Stored>>, files: Files,
                         dropped: seq<Stored>, lost: seq<Stored>)

  const START := State([], None, [], map[], [], [])

  /** A batch is written day by day, in a thread, so other batches may come in between; Abandon is the end of a
      batch whose next file cannot be written. `stored` says whether a single entry is written. */
  datatype Op =
    | Log(e: Entry, draw: real, loop: bool, stored: bool)
    | SyncLog(e: Entry, stored: bool)
    | Drain
    | Write(i: nat, d: string)
    | Abandon(i: nat)

  function Waiting(s: State): seq<Stored> {
    if s.queue.Some? then s.queue.value else []
  }

  function FileOf(files: Files, d: string): seq<Stored> {
    if d in files then files[d] else []
  }

  function AppendOne(files: Files, x: Stored): Files {
    files[x.entry.day := FileOf(files, x.entry.day) + [x]]
  }

  /** A batch reaches the files as if its entries were written one at a time. */
  function Written(files: Files, batch: seq<Stored>): Files
    decreases |batch|
  {
    if batch == [] then files else Written(AppendOne(files, batch[0]), batch[1..])
  }

  predicate Sampled(cfg: Config, draw: real) {
    cfg.enabled && (cfg.samplingRate < 1.0 ==> draw <= cfg.samplingRate)
  }

  predicate Full(cfg: Config, q: seq<Stored>) {
    0 < cfg.queueMaxSize <= |q|
  }

  function Enqueue(cfg: Config, s: State, x: Stored): State {
    var q := Waiting(s);
    if Full(cfg, q) then s.(queue := Some(q[1..] + [x]), dropped := s.dropped + [q[0]])
    else s.(queue := Some(q + [x]))
  }

  function Remember(s: State, e: Entry): State {
    s.(memory := s.memory + [Stored(|s.memory|, e)])
  }

  function BatchLength(cfg: Config, q: seq<Stored>): nat {
    if cfg.batchSize < 0 then 0 else if cfg.batchSize < |q| then cfg.batchSize else |q|
  }

  function Day(s: seq<Stored>, d: string): (r: seq<Stored>) {
    Filter(s, OnDay(d))
  }

  function OnDay(d: string): Stored -> bool {
    (x: Stored) => x.entry.day == d
  }

  function Rest(s: seq<Stored>, d: string): (r: seq<Stored>) {
    Filter(s, OffDay(d))
  }

  function OffDay(d: string): Stored -> bool {
    (x: Stored) => x.entry.day != d
  }

  function SyncStored(s: State, x: Stored, stored: bool): State {
    if stored then s.(files := AppendOne(s.files, x)) else s.(lost := s.lost + [x])
  }

  function Step(cfg: Config, s: State, op: Op): State {
    match op
    case Log(e, draw, loop, stored) =>
      if !Sampled(cfg, draw) then s else
      var x := Stored(|s.memory|, e);
      if s.queue.None? && !loop then SyncStored(Remember(s, e), x, stored)
      else Enqueue(cfg, Remember(s, e), x)
    case SyncLog(e, stored) =>
      if !cfg.enabled then s else SyncStored(Remember(s, e), Stored(|s.memory|, e), stored)
    case Drain =>
      var n := BatchLength(cfg, Waiting(s));
      if n == 0 then s
      else s.(queue := Some(Waiting(s)[n..]), flights := s.flights + [Waiting(s)[..n]])
    case Write(i, d) =>
      if i < |s.flights| then
        s.(flights := s.flights[i := Rest(s.flights[i], d)], files := Written(s.files, Day(s.flights[i], d)))
      else s
    case Abandon(i) =>
      if i < |s.flights| then s.(flights := s.flights[i := []], lost := s.lost + s.flights[i])
      else s
  }

  /** The days of one batch written one after the other, with nothing in between. */
  function Batched(cfg: Config, s: State, i: nat, days: seq<string>): State {
    if days == [] then s else Step(cfg, Batched(cfg, s, i, days[..|days| - 1]), Write(i, days[|days| - 1]))
  }

  /** The days of a batch in order of first use, after those already listed. */
  function DaysFrom(days: seq<string>, batch: seq<Stored>): seq<string>
    decreases |batch|
  {
    if batch == [] then days
    else
      var d := batch[0].entry.day;
      DaysFrom(if d in days then days else days + [d], batch[1..])
  }

  function Run(cfg: Config, s: State, ops: seq<Op>): State
    decreases |ops|
  {
    if ops == [] then s else Run(cfg, Step(cfg, s, ops[0]), ops[1..])
  }

  // ----- the logger -----

  class BatchAuditLogger {
    const config: Config
    var memory: seq<Stored>
    var queue: Option<seq<Stored>>
    var files: Files
    ghost var flights: seq<seq<Stored>>
    ghost var dropped: seq<Stored>
    ghost var lost: seq<Stored>

    ghost function View(): State
      reads this
    {
      State(memory, queue, flights, files, dropped, lost)
    }

    constructor (config: Config)
      ensures this.config == config && View() == START
    {
      this.config := config;
      memory, queue, files := [], None, map[];
      flights, dropped, lost := [], [], [];
    }

    /** True when the entry is queued, or written at once; an entry the disk refuses is remembered all the same. */
    method LogEntry(e: Entry, draw: real, loop: bool, stored: bool) returns (ok: bool)
      modifies this
      ensures View() == Step(config, old(View()), Log(e, draw, loop, stored))
      ensures ok <==> memory == old(memory) + [Stored(|old(memory)|, e)] && lost == old(lost)
      ensures var accepted := config.enabled && (config.samplingRate >= 1.0 || draw <= config.samplingRate);
        memory == if accepted then old(memory) + [Stored(|old(memory)|, e)] else old(memory)
      ensures var accepted := config.enabled && (config.samplingRate >= 1.0 || draw <= config.samplingRate);
        var q := if old(queue).Some? then old(queue).value else [];
        var full := 0 < config.queueMaxSize <= |q|;
        if accepted && (old(queue).Some? || loop)
        then queue == Some((if full then q[1..] else q) + [Stored(|old(memory)|, e)]) &&
             dropped == old(dropped) + (if full then [q[0]] else [])
        else queue == old(queue) && dropped == old(dropped)
    {
      if !config.enabled { return false; }
      if config.samplingRate < 1.0 && draw > config.samplingRate { return false; }
      var x := Stored(|memory|, e);
      memory := memory + [x];
      if queue.None? {
        if !loop {
          ok := SyncWrite(x, stored);
          return;
        }
        queue := Some([]);
      }
      var q := queue.value;
      if 0 < config.queueMaxSize <= |q| {
        dropped := dropped + [q[0]];
        q := q[1..];
      }
      queue := Some(q + [x]);
      ok := true;
    }

    method SyncWrite(x: Stored, stored: bool) returns (ok: bool)
      modifies this`files, this`lost
      ensures ok == stored && View() == SyncStored(old(View()), x, stored)
    {
      if !stored {
        lost := lost + [x];
        return false;
      }
      var before := if x.entry.day in files then files[x.entry.day] else [];
      files := files[x.entry.day := before + [x]];
      ok := true;
    }

    method SyncLogEntry(e: Entry, stored: bool) returns (ok: bool)
      modifies this
      ensures View() == Step(config, old(View()), SyncLog(e, stored)) && ok == (config.enabled && stored)
    {
      if !config.enabled { return false; }
      var x := Stored(|memory|, e);
      memory := memory + [x];
      ok := SyncWrite(x, stored);
    }

    /** The first half of a flush: take up to batchSize entries off the front of the queue. */
    method TakeBatch() returns (batch: seq<Stored>)
      modifies this
      ensures View() == Step(config, old(View()), Drain)
      ensures batch != [] ==> flights == old(flights) + [batch]
      ensures batch == [] ==> flights == old(flights)
      ensures var q := if old(queue).Some? then old(queue).value else [];
        && |batch| == (if config.batchSize < 0 then 0 else if config.batchSize < |q| then config.batchSize else |q|)
        && batch + Waiting(View()) == q && files == old(files) && memory == old(memory) && lost == old(lost)
    {
      batch := [];
      if queue.None? { return; }
      var q, k := queue.value, 0;
      while k < config.batchSize && q != []
        invariant 0 <= k <= |old(queue).value| && (k <= config.batchSize || k == 0)
        invariant batch == old(queue).value[..k] && q == old(queue).value[k..]
        invariant View() == old(View())
        decreases |q|
      {
        batch, q := batch + [q[0]], q[1..];
        k := k + 1;
      }
      assert k == BatchLength(config, old(queue).value);
      if k > 0 {
        queue, flights := Some(q), flights + [batch];
      }
    }

    /** The second half: group by day, then append each group to its file, until one cannot be written. `good` is
        how many files can. The count is that of the whole batch, or 0 after a failure. */
    method WriteBatch(batch: seq<Stored>, ghost i: nat, good: nat) returns (written: nat)
      requires i < |flights| && flights[i] == batch
      modifies this
      ensures var days := DaysFrom([], batch);
        if |days| <= good
        then View() == Batched(config, old(View()), i, days) && written == |batch|
        else View() == Step(config, Batched(config, old(View()), i, days[..good]), Abandon(i)) && written == 0
    {
      hide Written, DaysFrom, Batched, Step, Day, Rest, GroupSizes;
      var days, groups := GroupByDay(batch);
      GroupsHoldDays(batch);
      NothingBatched(config, View(), i);
      NoSizes(batch);
      written := 0;
      assert days[..0] == [];
      for k := 0 to |days|
        invariant k <= good
        invariant View() == Batched(config, old(View()), i, days[..k]) && written == GroupSizes(batch, days[..k])
      {
        var d := days[k];
        OneMoreDay(config, old(View()), i, days, k, batch);
        if k == good {
          Abandoned(config, View(), i);
          flights, lost := flights[i := []], lost + flights[i];
          return 0;
        }
        var before := if d in files then files[d] else [];
        files := files[d := before + groups[d]];
        flights := flights[i := Rest(flights[i], d)];
        written := written + |groups[d]|;
      }
      assert days[..|days|] == days;
      GroupsCountTheBatch(batch, days);
    }

    /** One flush with nothing in between its two halves. */
    method Flush(good: nat) returns (written: nat)
      modifies this
      ensures var drained := Step(config, old(View()), Drain);
        if drained == old(View()) then View() == drained && written == 0
        else
          var i := |old(flights)|;
          var batch := drained.flights[i];
          var days := DaysFrom([], batch);
          if |days| <= good then View() == Batched(config, drained, i, days) && written == |batch|
          else View() == Step(config, Batched(config, drained, i, days[..good]), Abandon(i)) && written == 0
    {
      var batch := TakeBatch();
      if batch == [] {
        assert View() == old(View());
        return 0;
      }
      written := WriteBatch(batch, |flights| - 1, good);
    }
  }

  /** The days of a batch in order of first use, and the entries of each. */
  method GroupByDay(batch: seq<Stored>) returns (days: seq<string>, groups: map<string, seq<Stored>>)
    ensures Distinct(days) && (forall d :: d in days <==> d in groups)
    ensures days == DaysFrom([], batch) && groups == Written(map[], batch)
  {
    days, groups := [], map[];
    assert batch[0..] == batch;
    for k := 0 to |batch|
      invariant Distinct(days) && (forall d :: d in days <==> d in groups)
      invariant DaysFrom([], batch) == DaysFrom(days, batch[k..])
      invariant Written(map[], batch) == Written(groups, batch[k..])
    {
      var x := batch[k];
      assert batch[k..][1..] == batch[k + 1..];
      ghost var before := groups;
      var d := x.entry.day;
      if d !in groups {
        days, groups := days + [d], groups[d := []];
      }
      groups := groups[d := groups[d] + [x]];
      assert groups == AppendOne(before, x);
    }
  }

  /** A dictionary built entry by entry holds, for each day, the entries of that day. */
  lemma GroupsHoldDays(batch: seq<Stored>)
    ensures var groups := Written(map[], batch);
      && (forall x :: x in batch ==> x.entry.day in groups)
      && (forall d :: d in groups ==> groups[d] == Day(batch, d) && groups[d] != [])
  {
    var groups := Written(map[], batch);
    forall x | x in batch ensures x.entry.day in groups {
      WrittenFile(map[], batch, x.entry.day);
    }
    forall d | d in groups ensures groups[d] == Day(batch, d) && groups[d] != [] {
      WrittenFile(map[], batch, d);
      var x :| x in batch && x.entry.day == d;
      assert x in Day(batch, d);
    }
  }

  // ----- grouping writes what one-at-a-time writing does -----

  function GroupSizes(batch: seq<Stored>, days: seq<string>): nat {
    if days == [] then 0 else GroupSizes(batch, days[..|days| - 1]) + |Day(batch, days[|days| - 1])|
  }

  lemma NoSizes(batch: seq<Stored>)
    ensures GroupSizes(batch, []) == 0
  {
  }

  lemma NothingBatched(cfg: Config, s: State, i: nat)
    ensures Batched(cfg, s, i, []) == s
  {
  }

  lemma Abandoned(cfg: Config, s: State, i: nat)
    requires i < |s.flights|
    ensures Step(cfg, s, Abandon(i)) == s.(flights := s.flights[i := []], lost := s.lost + s.flights[i])
  {
  }

  /** What a file holds after a batch: what it held, then the batch's entries of its day, in order. */
  lemma {:induction false} WrittenFile(files: Files, batch: seq<Stored>, d: string)
    ensures FileOf(Written(files, batch), d) == FileOf(files, d) + Day(batch, d)
    ensures d in Written(files, batch) <==> d in files || exists x :: x in batch && x.entry.day == d
    decreases |batch|
  {
    if batch != [] {
      var x, rest := batch[0], batch[1..];
      var after := AppendOne(files, x);
      WrittenFile(after, rest, d);
      assert FileOf(after, d) == FileOf(files, d) + if x.entry.day == d then [x] else [];
      assert forall y :: y in batch <==> y == x || y in rest;
    }
  }

  lemma {:induction false} DayOfDay(s: seq<Stored>, d: string, e: string)
    ensures Day(Day(s, d), e) == if d == e then Day(s, d) else []
    ensures Day(Rest(s, d), e) == if d == e then [] else Day(s, e)
  {
    if s != [] {
      DayOfDay(s[1..], d, e);
      if s[0].entry.day == d {
        assert Day(s, d)[1..] == Day(s[1..], d);
      } else {
        assert Rest(s, d)[1..] == Rest(s[1..], d);
      }
    }
  }

  /** Writing one group is appending it to its file. */
  lemma GroupIsAppended(files: Files, batch: seq<Stored>, d: string)
    requires Day(batch, d) != []
    ensures Written(files, Day(batch, d)) == files[d := FileOf(files, d) + Day(batch, d)]
  {
    hide Written, Day;
    var group := Day(batch, d);
    var a, b := Written(files, group), files[d := FileOf(files, d) + group];
    forall e ensures (e in a <==> e in b) && FileOf(a, e) == FileOf(b, e) {
      WrittenFile(files, group, e);
      DayOfDay(batch, d, e);
      GroupIsOfDay(batch, d);
    }
  }

  lemma GroupIsOfDay(batch: seq<Stored>, d: string)
    ensures forall x :: x in Day(batch, d) ==> x.entry.day == d
    ensures Day(batch, d) != [] ==> Day(batch, d)[0] in Day(batch, d)
  {
  }

  /** The batch while its days are being written: what is left of it, and what each file has gained. */
  lemma {:induction false} BatchedSoFar(cfg: Config, s: State, i: nat, days: seq<string>, d: string)
    requires i < |s.flights| && Distinct(days)
    ensures var t := Batched(cfg, s, i, days);
      && t == s.(flights := t.flights, files := t.files)
      && |t.flights| == |s.flights| && (forall j :: 0 <= j < |s.flights| && j != i ==> t.flights[j] == s.flights[j])
      && Day(t.flights[i], d) == (if d in days then [] else Day(s.flights[i], d))
      && FileOf(t.files, d) == FileOf(s.files, d) + (if d in days then Day(s.flights[i], d) else [])
    decreases |days|
  {
    hide Day, Written, FileOf, Rest;
    if days != [] {
      var n := |days| - 1;
      var e := days[n];
      assert days == days[..n] + [e] && e !in days[..n];
      BatchedSoFar(cfg, s, i, days[..n], d);
      BatchedSoFar(cfg, s, i, days[..n], e);
      var t := Batched(cfg, s, i, days[..n]);
      DayOfDay(t.flights[i], e, d);
      WrittenFile(t.files, Day(t.flights[i], e), d);
    }
  }

  lemma OneMoreDay(cfg: Config, s: State, i: nat, days: seq<string>, k: nat, batch: seq<Stored>)
    requires i < |s.flights| && s.flights[i] == batch && Distinct(days) && k < |days| && Day(batch, days[k]) != []
    ensures var t := Batched(cfg, s, i, days[..k]);
      && i < |t.flights| == |s.flights|
      && Batched(cfg, s, i, days[..k + 1]) == t.(flights := t.flights[i := Rest(t.flights[i], days[k])],
           files := t.files[days[k] := FileOf(t.files, days[k]) + Day(batch, days[k])])
    ensures GroupSizes(batch, days[..k + 1]) == GroupSizes(batch, days[..k]) + |Day(batch, days[k])|
  {
    hide Day, Written, FileOf, Rest;
    assert days[..k + 1][..k] == days[..k] && days[..k + 1][k] == days[k];
    BatchedSoFar(cfg, s, i, days[..k], days[k]);
    var t := Batched(cfg, s, i, days[..k]);
    GroupIsAppended(t.files, t.flights[i], days[k]);
  }

  lemma {:induction false} DaysOfBatch(days: seq<string>, batch: seq<Stored>)
    requires Distinct(days)
    ensures Distinct(DaysFrom(days, batch))
    ensures forall d :: d in DaysFrom(days, batch) <==> d in days || exists x :: x in batch && x.entry.day == d
    decreases |batch|
  {
    if batch != [] {
      var d := batch[0].entry.day;
      DaysOfBatch(if d in days then days else days + [d], batch[1..]);
      assert forall x :: x in batch <==> x == batch[0] || x in batch[1..];
    }
  }

  /** Grouped by day and written group by group, a batch leaves the files it would leave written entry by entry, and
      nothing of it remains. */
  lemma {:induction false} GroupsAreTheBatch(cfg: Config, s: State, i: nat)
    requires i < |s.flights|
    ensures Batched(cfg, s, i, DaysFrom([], s.flights[i]))
         == s.(flights := s.flights[i := []], files := Written(s.files, s.flights[i]))
  {
    hide Batched, Written, Day, DaysFrom;
    var batch := s.flights[i];
    var days := DaysFrom([], batch);
    DaysOfBatch([], batch);
    var t := Batched(cfg, s, i, days);
    BatchedSoFar(cfg, s, i, days, "");
    forall d ensures FileOf(t.files, d) == FileOf(Written(s.files, batch), d) && Day(t.flights[i], d) == [] {
      BatchedSoFar(cfg, s, i, days, d);
      WrittenFile(s.files, batch, d);
      if d !in days { NoneOfDay(batch, d); }
    }
    NothingLeft(t.flights[i]);
    var w := Written(s.files, batch);
    forall d | d in days ensures Day(batch, d) != [] {
      var x :| x in batch && x.entry.day == d;
      InItsDay(batch, x);
    }
    forall d ensures d in t.files <==> d in w {
      BatchedFiles(cfg, s, i, days, d);
      WrittenFile(s.files, batch, d);
    }
    forall d | d in w ensures t.files[d] == w[d] {
      assert FileOf(t.files, d) == FileOf(w, d);
    }
    assert t.files == w && t.flights == s.flights[i := []];
  }

  lemma NoneOfDay(batch: seq<Stored>, d: string)
    requires !exists x :: x in batch && x.entry.day == d
    ensures Day(batch, d) == []
  {
    FilterNone(batch, OnDay(d));
  }

  lemma NothingLeft(s: seq<Stored>)
    requires forall d :: Day(s, d) == []
    ensures s == []
  {
    hide Day;
    if s != [] {
      InItsDay(s, s[0]);
    }
  }

  lemma {:induction false} BatchedFiles(cfg: Config, s: State, i: nat, days: seq<string>, d: string)
    requires i < |s.flights| && Distinct(days)
    requires forall e :: e in days ==> Day(s.flights[i], e) != []
    ensures d in Batched(cfg, s, i, days).files <==> d in s.files || d in days
    decreases |days|
  {
    hide Day, Written, Rest;
    if days != [] {
      var n := |days| - 1;
      var e := days[n];
      assert days == days[..n] + [e] && e !in days[..n];
      BatchedFiles(cfg, s, i, days[..n], d);
      BatchedSoFar(cfg, s, i, days[..n], e);
      var t := Batched(cfg, s, i, days[..n]);
      assert e in days && forall c :: c in days[..n] ==> c in days;
      GroupIsAppended(t.files, t.flights[i], e);
    }
  }

  lemma InItsDay(s: seq<Stored>, x: Stored)
    requires x in s
    ensures x in Day(s, x.entry.day)
  {
  }

  lemma {:induction false} GroupsCountTheBatch(batch: seq<Stored>, days: seq<string>)
    requires Distinct(days) && forall x :: x in batch ==> x.entry.day in days
    ensures GroupSizes(batch, days) == |batch|
    decreases |days|
  {
    if days == [] {
      HeadIsMember(batch);
    } else {
      var n := |days| - 1;
      var d, fewer := days[n], days[..n];
      assert days == fewer + [d];
      var others := Rest(batch, d);
      GroupsCountTheBatch(others, fewer);
      FilterSplits(batch, d);
      GroupSizesIgnore(batch, fewer, d);
    }
  }

  lemma {:induction false} FilterSplits(s: seq<Stored>, d: string)
    ensures |s| == |Day(s, d)| + |Rest(s, d)|
  {
    if s != [] { FilterSplits(s[1..], d); }
  }

  lemma {:induction false} GroupSizesIgnore(batch: seq<Stored>, days: seq<string>, d: string)
    requires d !in days
    ensures GroupSizes(Rest(batch, d), days) == GroupSizes(batch, days)
    decreases |days|
  {
    if days != [] {
      var n := |days| - 1;
      GroupSizesIgnore(batch, days[..n], d);
      FilterFilter(batch, (x: Stored) => x.entry.day != d, OnDay(days[n]), OnDay(days[n]));
    }
  }
}
