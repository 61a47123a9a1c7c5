/** Usage accounting, admission and waiting queues. The day and the clock are parameters. */
module Quota {

  datatype Action = ALLOW | QUEUE | DOWNGRADE | REJECT

  datatype Limit = Limit(maxConcurrentTasks: int, maxDailyCost: real, maxDailyTokens: int, maxQueued: int)

  datatype Limits = Limits(user: Limit, department: Limit, system: Limit, llmApi: Limit)

  const DEFAULT_LIMITS := Limits(Limit(5, 5.0, 1_000_000, 10), Limit(50, 200.0, 50_000_000, 50),
                                 Limit(200, 2000.0, 500_000_000, 200), Limit(1000, 10000.0, 10_000_000_000, 1000))

  datatype Snapshot = Snapshot(tokensInput: int, tokensOutput: int, totalCost: real, totalRequests: int)

  const NOTHING := Snapshot(0, 0, 0.0, 0)

  function Plus(a: Snapshot, b: Snapshot): Snapshot {
    Snapshot(a.tokensInput + b.tokensInput, a.tokensOutput + b.tokensOutput, a.totalCost + b.totalCost,
             a.totalRequests + b.totalRequests)
  }

  /** One usage record; an empty department means none. */
  datatype Usage = Usage(user: string, department: string, tokensInput: int, tokensOutput: int, cost: real)

  function Amount(u: Usage): Snapshot {
    Snapshot(u.tokensInput, u.tokensOutput, u.cost, 1)
  }

  type Ledger = map<string, Snapshot>
  type Counts = map<string, int>
  type Queues = map<string, seq<real>>

  datatype Books = Books(today: int, users: Ledger, departments: Ledger, system: Snapshot,
                         running: Counts, departmentRunning: Counts, llmTokens: real, llmLastRefill: real)

  function Of(l: Ledger, id: string): Snapshot {
    if id in l then l[id] else NOTHING
  }

  function Count(c: Counts, id: string): int {
    if id in c then c[id] else 0
  }

  // ----- the effect of each call -----

  /** `_check_reset`: a new day clears usage but not the running tasks. */
  function Reset(b: Books, day: int): Books {
    if day == b.today then b else b.(today := day, users := map[], departments := map[], system := NOTHING)
  }

  function Charged(b: Books, user: string, amount: Snapshot): Books {
    b.(users := b.users[user := Plus(Of(b.users, user), amount)])
  }

  function DepartmentCharged(b: Books, department: string, amount: Snapshot): Books {
    if department == "" then b
    else b.(departments := b.departments[department := Plus(Of(b.departments, department), amount)])
  }

  function Recorded(b0: Books, u: Usage, day: int): Books {
    var b := DepartmentCharged(Charged(Reset(b0, day), u.user, Amount(u)), u.department, Amount(u));
    b.(system := Plus(b.system, Amount(u)))
  }

  function Started(b: Books, user: string, department: string): Books {
    b.(running := b.running[user := Count(b.running, user) + 1],
       departmentRunning := if department == "" then b.departmentRunning
                            else b.departmentRunning[department := Count(b.departmentRunning, department) + 1])
  }

  function Floor0(n: int): int {
    if n < 0 then 0 else n
  }

  function Ended(b: Books, user: string, department: string): Books {
    b.(running := b.running[user := Floor0(Count(b.running, user) - 1)],
       departmentRunning := if department == "" then b.departmentRunning
                            else b.departmentRunning[department := Floor0(Count(b.departmentRunning, department) - 1)])
  }

  function Available(b: Books, rate: real, now: real): real {
    var filled := b.llmTokens + (now - b.llmLastRefill) * rate;
    if filled <= rate then filled else rate
  }

  datatype Request = Request(user: string, department: string, cost: real, tokens: int)

  /** `check_quota` on books already reset to the current day: checks in order, first failure wins. There is
      no check on the number of tasks running in the whole system. */
  function Decide(b: Books, l: Limits, q: Request, now: real): Action {
    if Count(b.running, q.user) >= l.user.maxConcurrentTasks then QUEUE
    else if Of(b.users, q.user).totalCost + q.cost > l.user.maxDailyCost then REJECT
    else if Of(b.users, q.user).tokensInput + q.tokens > l.user.maxDailyTokens then DOWNGRADE
    else if q.department != "" && Count(b.departmentRunning, q.department) >= l.department.maxConcurrentTasks then QUEUE
    else if q.department != "" && Of(b.departments, q.department).totalCost + q.cost > l.department.maxDailyCost then REJECT
    else if b.system.totalCost + q.cost > l.system.maxDailyCost then REJECT
    else if b.system.tokensInput + q.tokens > l.system.maxDailyTokens then DOWNGRADE
    else if Available(b, l.llmApi.maxConcurrentTasks as real, now) < 1.0 then QUEUE
    else ALLOW
  }

  /** Nothing that admission or totals depend on distinguishes the two. */
  ghost predicate SameUsage(a: Books, b: Books) {
    && a.today == b.today && a.system == b.system && a.running == b.running && a.departmentRunning == b.departmentRunning
    && (forall id :: Of(a.users, id) == Of(b.users, id)) && (forall id :: Of(a.departments, id) == Of(b.departments, id))
  }

  class QuotaStore {
    var today: int
    var users: Ledger
    var departments: Ledger
    var system: Snapshot
    var running: Counts
    var departmentRunning: Counts
    var llmTokens: real
    var llmLastRefill: real

    ghost function State(): Books
      reads this
    {
      Books(today, users, departments, system, running, departmentRunning, llmTokens, llmLastRefill)
    }

    constructor (day: int, now: real)
      ensures State() == Books(day, map[], map[], NOTHING, map[], map[], 100.0, now)
    {
      today, users, departments, system := day, map[], map[], NOTHING;
      running, departmentRunning, llmTokens, llmLastRefill := map[], map[], 100.0, now;
    }

    method CheckReset(day: int)
      modifies this
      ensures State() == Reset(old(State()), day)
    {
      if day != today {
        today, users, departments, system := day, map[], map[], NOTHING;
      }
    }

    method UserSnapshot(user: string, day: int) returns (s: Snapshot)
      modifies this
      ensures s == Of(Reset(old(State()), day).users, user)
      ensures State() == Reset(old(State()), day).(users := Reset(old(State()), day).users[user := s])
    {
      CheckReset(day);
      if user !in users {
        users := users[user := NOTHING];
      }
      s := users[user];
      assert users == users[user := s];
    }

    method DepartmentSnapshot(department: string, day: int) returns (s: Snapshot)
      modifies this
      ensures s == Of(Reset(old(State()), day).departments, department)
      ensures State() == Reset(old(State()), day).(departments := Reset(old(State()), day).departments[department := s])
    {
      CheckReset(day);
      if department !in departments {
        departments := departments[department := NOTHING];
      }
      s := departments[department];
      assert departments == departments[department := s];
    }

    method ChargeUser(user: string, amount: Snapshot, day: int)
      modifies this
      ensures State() == Charged(Reset(old(State()), day), user, amount)
    {
      var s := UserSnapshot(user, day);
      users := users[user := Plus(s, amount)];
    }

    method ChargeDepartment(department: string, amount: Snapshot, day: int)
      modifies this
      ensures State() == DepartmentCharged(Reset(old(State()), day), department, amount)
    {
      hide Plus;
      if department != "" {
        var s := DepartmentSnapshot(department, day);
        departments := departments[department := Plus(s, amount)];
      } else {
        CheckReset(day);
      }
    }

    method RecordUsage(u: Usage, day: int)
      modifies this
      ensures State() == Recorded(old(State()), u, day)
    {
      hide Plus, Amount;
      CheckReset(day);
      ChargeUser(u.user, Amount(u), day);
      ChargeDepartment(u.department, Amount(u), day);
      system := Plus(system, Amount(u));
    }

    method StartTask(user: string, department: string)
      modifies this
      ensures State() == Started(old(State()), user, department)
    {
      running := running[user := Count(running, user) + 1];
      if department != "" {
        departmentRunning := departmentRunning[department := Count(departmentRunning, department) + 1];
      }
    }

    method EndTask(user: string, department: string)
      modifies this
      ensures State() == Ended(old(State()), user, department)
    {
      running := running[user := Floor0(Count(running, user) - 1)];
      if department != "" {
        departmentRunning := departmentRunning[department := Floor0(Count(departmentRunning, department) - 1)];
      }
    }

    method LlmAvailable(rate: real, now: real) returns (tokens: real)
      modifies this`llmTokens, this`llmLastRefill
      ensures tokens == Available(old(State()), rate, now) && llmTokens == tokens && llmLastRefill == now
      ensures var filled := old(llmTokens) + (now - old(llmLastRefill)) * rate;
        tokens == if filled <= rate then filled else rate
    {
      var filled := llmTokens + (now - llmLastRefill) * rate;
      llmTokens := if filled <= rate then filled else rate;
      llmLastRefill := now;
      tokens := llmTokens;
    }

    method CheckQuota(l: Limits, q: Request, day: int, now: real) returns (a: Action)
      modifies this
      ensures a == Decide(Reset(old(State()), day), l, q, now)
      ensures SameUsage(State(), Reset(old(State()), day))
      ensures a == ALLOW ==> llmTokens >= 1.0 && llmLastRefill == now
    {
      var s := UserSnapshot(q.user, day);
      if Count(running, q.user) >= l.user.maxConcurrentTasks { return QUEUE; }
      if s.totalCost + q.cost > l.user.maxDailyCost { return REJECT; }
      if s.tokensInput + q.tokens > l.user.maxDailyTokens { return DOWNGRADE; }
      if q.department != "" {
        var d := DepartmentSnapshot(q.department, day);
        if Count(departmentRunning, q.department) >= l.department.maxConcurrentTasks { return QUEUE; }
        if d.totalCost + q.cost > l.department.maxDailyCost { return REJECT; }
      }
      if system.totalCost + q.cost > l.system.maxDailyCost { return REJECT; }
      if system.tokensInput + q.tokens > l.system.maxDailyTokens { return DOWNGRADE; }
      var available := LlmAvailable(l.llmApi.maxConcurrentTasks as real, now);
      if available < 1.0 { return QUEUE; }
      a := ALLOW;
    }
  }

  // ----- conservation -----

  ghost function Sum(l: Ledger): Snapshot {
    if l == map[] then NOTHING
    else
      var k :| k in l;
      Plus(l[k], Sum(l - {k}))
  }

  lemma {:induction false} SumWithout(l: Ledger, k: string)
    requires k in l
    ensures Sum(l) == Plus(l[k], Sum(l - {k}))
    decreases |l|
  {
    var j :| j in l && Sum(l) == Plus(l[j], Sum(l - {j}));
    if j != k {
      SumWithout(l - {j}, k);
      SumWithout(l - {k}, j);
      assert l - {j} - {k} == l - {k} - {j};
      var rest := Sum(l - {j} - {k});
      assert Sum(l) == Plus(l[j], Plus(l[k], rest)) && Sum(l - {k}) == Plus(l[j], rest);
    }
  }

  lemma {:induction false} SumUpdated(l: Ledger, k: string, x: Snapshot)
    ensures Sum(l[k := Plus(Of(l, k), x)]) == Plus(Sum(l), x)
  {
    var m := l[k := Plus(Of(l, k), x)];
    SumWithout(m, k);
    if k in l {
      SumWithout(l, k);
      assert m - {k} == l - {k};
    } else {
      assert m - {k} == l;
    }
  }

  datatype Event =
    | Record(usage: Usage, day: int)
    | Start(user: string, department: string)
    | End(user: string, department: string)
    | Admit(request: Request, usage: Usage, day: int, now: real)

  /** Admit is one task taken through check, start and record with nothing in between; it changes nothing
      unless the check allows it. */
  function Apply(b: Books, l: Limits, e: Event): Books {
    match e
    case Record(u, day) => Recorded(b, u, day)
    case Start(user, department) => Started(b, user, department)
    case End(user, department) => Ended(b, user, department)
    case Admit(q, u, day, now) =>
      if Decide(Reset(b, day), l, q, now) == ALLOW
      then Recorded(Started(Reset(b, day), q.user, q.department), u, day)
      else Reset(b, day)
  }

  function Run(b: Books, l: Limits, es: seq<Event>): Books
    decreases |es|
  {
    if es == [] then b else Run(Apply(b, l, es[0]), l, es[1..])
  }

  lemma RecordedBalances(b: Books, u: Usage, day: int)
    requires b.system == Sum(b.users)
    ensures Recorded(b, u, day).system == Sum(Recorded(b, u, day).users)
  {
    var r := Reset(b, day);
    SumUpdated(r.users, u.user, Amount(u));
  }

  /** In every history, across day changes, the system totals are the sums over all users. */
  lemma {:induction false} SystemIsSumOfUsers(b: Books, l: Limits, es: seq<Event>)
    requires b.system == Sum(b.users)
    ensures Run(b, l, es).system == Sum(Run(b, l, es).users)
    decreases |es|
  {
    if es != [] {
      match es[0] {
        case Record(u, day) => RecordedBalances(b, u, day);
        case Admit(q, u, day, now) => RecordedBalances(Started(Reset(b, day), q.user, q.department), u, day);
        case Start(_, _) =>
        case End(_, _) =>
      }
      SystemIsSumOfUsers(Apply(b, l, es[0]), l, es[1..]);
    }
  }

  // ----- what is decided -----

  /** The eight bounds in the order in which they are checked, each with whether the request passes it. */
  function Exceeded(b: Books, l: Limits, q: Request, now: real): (e: seq<bool>)
    ensures |e| == 8
  {
    var u := if q.user in b.users then b.users[q.user] else Snapshot(0, 0, 0.0, 0);
    var d := if q.department in b.departments then b.departments[q.department] else Snapshot(0, 0, 0.0, 0);
    var filled := b.llmTokens + (now - b.llmLastRefill) * l.llmApi.maxConcurrentTasks as real;
    [ (if q.user in b.running then b.running[q.user] else 0) >= l.user.maxConcurrentTasks,
      u.totalCost + q.cost > l.user.maxDailyCost,
      u.tokensInput + q.tokens > l.user.maxDailyTokens,
      q.department != "" && (if q.department in b.departmentRunning then b.departmentRunning[q.department] else 0)
                            >= l.department.maxConcurrentTasks,
      q.department != "" && d.totalCost + q.cost > l.department.maxDailyCost,
      b.system.totalCost + q.cost > l.system.maxDailyCost,
      b.system.tokensInput + q.tokens > l.system.maxDailyTokens,
      filled < 1.0 || l.llmApi.maxConcurrentTasks < 1 ]
  }

  ghost predicate FirstExceeded(b: Books, l: Limits, q: Request, now: real, k: nat) {
    k < 8 && Exceeded(b, l, q, now)[k] && forall j :: 0 <= j < k ==> !Exceeded(b, l, q, now)[j]
  }

  /** A request is allowed exactly when no bound is exceeded; otherwise the first one decides: too many tasks or too
      high a call rate queue it, cost rejects it, tokens downgrade it. */
  lemma DecisionsMean(b: Books, l: Limits, q: Request, now: real)
    ensures Decide(b, l, q, now) == ALLOW <==> forall k :: 0 <= k < 8 ==> !Exceeded(b, l, q, now)[k]
    ensures Decide(b, l, q, now) == QUEUE <==> exists k :: k in {0, 3, 7} && FirstExceeded(b, l, q, now, k)
    ensures Decide(b, l, q, now) == REJECT <==> exists k :: k in {1, 4, 5} && FirstExceeded(b, l, q, now, k)
    ensures Decide(b, l, q, now) == DOWNGRADE <==> exists k :: k in {2, 6} && FirstExceeded(b, l, q, now, k)
  {
    if k: nat :| FirstExceeded(b, l, q, now, k) {
      FirstDecides(b, l, q, now, k);
      forall i: nat | FirstExceeded(b, l, q, now, i) ensures i == k {
      }
    } else {
      NoneExceeded(b, l, q, now);
    }
  }

  lemma FirstDecides(b: Books, l: Limits, q: Request, now: real, k: nat)
    requires FirstExceeded(b, l, q, now, k)
    ensures Decide(b, l, q, now) == [QUEUE, REJECT, DOWNGRADE, QUEUE, REJECT, REJECT, DOWNGRADE, QUEUE][k]
  {
    var e := Exceeded(b, l, q, now);
    assert forall j :: 0 <= j < k ==> !e[j];
    assert k > 0 ==> !e[0];
    assert k > 1 ==> !e[1];
    assert k > 2 ==> !e[2];
    assert k > 3 ==> !e[3];
    assert k > 4 ==> !e[4];
    assert k > 5 ==> !e[5];
    assert k > 6 ==> !e[6];
  }

  lemma {:induction false} SomeFirst(b: Books, l: Limits, q: Request, now: real, k: nat) returns (first: nat)
    requires k < 8 && Exceeded(b, l, q, now)[k]
    ensures FirstExceeded(b, l, q, now, first)
  {
    hide Exceeded;
    if j: nat :| j < k && Exceeded(b, l, q, now)[j] { first := SomeFirst(b, l, q, now, j); } else { first := k; }
  }

  lemma NoneExceeded(b: Books, l: Limits, q: Request, now: real)
    requires forall k: nat :: !FirstExceeded(b, l, q, now, k)
    ensures Decide(b, l, q, now) == ALLOW && forall k :: 0 <= k < 8 ==> !Exceeded(b, l, q, now)[k]
  {
    var e := Exceeded(b, l, q, now);
    forall k | 0 <= k < 8 ensures !e[k] {
      if e[k] { var first := SomeFirst(b, l, q, now, k); assert false; }
    }
    assert !e[0] && !e[1] && !e[2] && !e[3] && !e[4] && !e[5] && !e[6] && !e[7];
  }

  /** Out of the box a user may run 5 tasks and spend 5.0 a day, whoever else is idle. */
  lemma DefaultBounds(b: Books, q: Request, now: real)
    requires q.department == "" && b.system == NOTHING && b.llmTokens >= 1.0 && now >= b.llmLastRefill
    requires 0.0 <= q.cost <= 2000.0 && q.tokens <= 500_000_000
    ensures Decide(b, DEFAULT_LIMITS, q, now) == ALLOW <==>
      && (q.user in b.running ==> b.running[q.user] < 5)
      && (if q.user in b.users then b.users[q.user].totalCost else 0.0) + q.cost <= 5.0
      && (if q.user in b.users then b.users[q.user].tokensInput else 0) + q.tokens <= 1_000_000
  {
  }

  /** What one record adds, on the day it is for: to its user, its department if any, and the system, in each of the
      four columns, and to nobody else. */
  lemma RecordAdds(b: Books, u: Usage)
    ensures var r := Recorded(b, u, b.today);
      var more := (after: Snapshot, before: Snapshot) =>
        && after.tokensInput == before.tokensInput + u.tokensInput && after.tokensOutput == before.tokensOutput + u.tokensOutput
        && after.totalCost == before.totalCost + u.cost && after.totalRequests == before.totalRequests + 1;
      && more(Of(r.users, u.user), Of(b.users, u.user)) && more(r.system, b.system)
      && (u.department != "" ==> more(Of(r.departments, u.department), Of(b.departments, u.department)))
      && (forall id :: id != u.user ==> Of(r.users, id) == Of(b.users, id))
      && (forall id :: id != u.department || id == "" ==> Of(r.departments, id) == Of(b.departments, id))
      && r.running == b.running && r.departmentRunning == b.departmentRunning && r.today == b.today
  {
  }

  /** A new day starts at nothing for everybody and keeps the running tasks; the same day keeps everything. */
  lemma NewDayStartsAtNothing(b: Books, day: int, id: string)
    ensures var r := Reset(b, day);
      && r.today == day && r.running == b.running && r.departmentRunning == b.departmentRunning
      && r.llmTokens == b.llmTokens && r.llmLastRefill == b.llmLastRefill
      && (day == b.today ==> r == b)
      && (day != b.today ==> id !in r.users && id !in r.departments && r.system == Snapshot(0, 0, 0.0, 0))
  {
  }

  /** Ending a task undoes starting it, for the user and the department, and neither count ever goes below zero. */
  lemma EndUndoesStart(b: Books, user: string, department: string)
    requires Count(b.running, user) >= 0 && Count(b.departmentRunning, department) >= 0
    ensures var s := Started(b, user, department); var e := Ended(s, user, department);
      && Count(s.running, user) == Count(b.running, user) + 1 && Count(e.running, user) == Count(b.running, user)
      && (department != "" ==> Count(s.departmentRunning, department) == Count(b.departmentRunning, department) + 1)
      && (department != "" ==> Count(e.departmentRunning, department) == Count(b.departmentRunning, department))
      && (department == "" ==> e.departmentRunning == b.departmentRunning)
      && (forall id :: id != user ==> Count(e.running, id) == Count(b.running, id))
      && (forall id :: id != department ==> Count(e.departmentRunning, id) == Count(b.departmentRunning, id))
    ensures Count(b.running, user) == 0 ==> Count(Ended(b, user, department).running, user) == 0
  {
  }

  // ----- caps -----

  /** Work reaches the books only through Admit, at no more than its estimate, or by ending. */
  predicate Disciplined(e: Event) {
    match e
    case Admit(q, u, _, _) => u.user == q.user && u.department == q.department && u.cost <= q.cost
    case End(_, _) => true
    case Record(_, _) => false
    case Start(_, _) => false
  }

  ghost predicate WithinCaps(b: Books, l: Limits) {
    && (forall id | id in b.users :: b.users[id].totalCost <= l.user.maxDailyCost)
    && (forall id | id in b.departments :: b.departments[id].totalCost <= l.department.maxDailyCost)
    && b.system.totalCost <= l.system.maxDailyCost
    && (forall id | id in b.running :: b.running[id] <= l.user.maxConcurrentTasks)
    && (forall id | id in b.departmentRunning :: b.departmentRunning[id] <= l.department.maxConcurrentTasks)
  }

  ghost predicate Sensible(l: Limits) {
    && l.user.maxDailyCost >= 0.0 && l.department.maxDailyCost >= 0.0 && l.system.maxDailyCost >= 0.0
    && l.user.maxConcurrentTasks >= 0 && l.department.maxConcurrentTasks >= 0
  }

  lemma ApplyKeepsCaps(b: Books, l: Limits, e: Event)
    requires Sensible(l) && WithinCaps(b, l) && Disciplined(e)
    ensures WithinCaps(Apply(b, l, e), l)
  {
    hide WithinCaps, Sensible, Reset, Recorded, Started, Ended, Decide;
    match e
    case Admit(q, u, day, now) =>
      ResetKeepsCaps(b, l, day);
      if Decide(Reset(b, day), l, q, now) == ALLOW {
        AdmissionKeepsCaps(Reset(b, day), l, q, u, now);
        assert Reset(b, day).today == day by { ResetSetsDay(b, day); }
      }
    case End(user, department) => EndKeepsCaps(b, l, user, department);
  }

  lemma ResetSetsDay(b: Books, day: int)
    ensures Reset(b, day).today == day
  {
  }

  lemma ResetKeepsCaps(b: Books, l: Limits, day: int)
    requires Sensible(l) && WithinCaps(b, l)
    ensures WithinCaps(Reset(b, day), l)
  {
  }

  lemma EndKeepsCaps(b: Books, l: Limits, user: string, department: string)
    requires Sensible(l) && WithinCaps(b, l)
    ensures WithinCaps(Ended(b, user, department), l)
  {
  }

  /** A task admitted and charged at no more than its estimate stays within the caps that admitted it. */
  lemma AdmissionKeepsCaps(b: Books, l: Limits, q: Request, u: Usage, now: real)
    requires Sensible(l) && WithinCaps(b, l) && Decide(b, l, q, now) == ALLOW
    requires u.user == q.user && u.department == q.department && u.cost <= q.cost
    ensures WithinCaps(Recorded(Started(b, q.user, q.department), u, b.today), l)
  {
    hide Available;
  }

  /** While every task is admitted, started and charged in one go, no history exceeds the daily cost of a user,
      a department or the system, nor the concurrency of a user or a department. */
  lemma {:induction false} CapsHold(b: Books, l: Limits, es: seq<Event>)
    requires Sensible(l) && WithinCaps(b, l) && forall i :: 0 <= i < |es| ==> Disciplined(es[i])
    ensures WithinCaps(Run(b, l, es), l)
    decreases |es|
  {
    if es != [] {
      ApplyKeepsCaps(b, l, es[0]);
      assert forall i :: 0 <= i < |es[1..]| ==> es[1..][i] == es[i + 1];
      CapsHold(Apply(b, l, es[0]), l, es[1..]);
    }
  }

  /** Charging after the work is done breaks the cap: two tasks allowed against the same untouched books,
      each at the whole daily budget, cost twice the budget once both are recorded. */
  lemma LateChargesOvershoot(user: string, now: real, day: int)
    ensures var b := Books(day, map[], map[], NOTHING, map[], map[], 100.0, now);
      var l := DEFAULT_LIMITS;
      var q := Request(user, "", l.user.maxDailyCost, 0);
      var u := Usage(user, "", 0, 0, l.user.maxDailyCost);
      var both := Started(Started(b, user, ""), user, "");
      && Decide(b, l, q, now) == ALLOW && Decide(Started(b, user, ""), l, q, now) == ALLOW
      && Recorded(Recorded(both, u, day), u, day).users[user].totalCost > l.user.maxDailyCost
  {
  }

  /** However many tasks other users and departments run, a request is decided the same way: the system-wide
      task limit is not enforced. */
  lemma OthersTasksDoNotMatter(b: Books, l: Limits, q: Request, now: real, running: Counts, departmentRunning: Counts)
    requires Count(running, q.user) == Count(b.running, q.user)
    requires Count(departmentRunning, q.department) == Count(b.departmentRunning, q.department)
    ensures Decide(b.(running := running, departmentRunning := departmentRunning), l, q, now) == Decide(b, l, q, now)
  {
  }

  // ----- waiting queues -----

  ghost predicate Tallied(c: Counts, q: Queues, max: int) {
    forall id :: Count(c, id) == |Waiting(q, id)| <= Floor0(max)
  }

  lemma TallyCounts(c: Counts, q: Queues, max: int, id: string)
    requires Tallied(c, q, max)
    ensures Count(c, id) == |Waiting(q, id)|
  {
  }

  lemma PushKeepsTally(c: Counts, q: Queues, max: int, id: string, x: real)
    requires Tallied(c, q, max) && Count(c, id) < max
    ensures Tallied(c[id := Count(c, id) + 1], q[id := Waiting(q, id) + [x]], max)
  {
    var d, r := c[id := Count(c, id) + 1], q[id := Waiting(q, id) + [x]];
    forall k ensures Count(d, k) == |Waiting(r, k)| <= Floor0(max) {
      assert Count(c, k) == |Waiting(q, k)| <= Floor0(max);
    }
  }

  lemma PopKeepsTally(c: Counts, q: Queues, max: int, id: string)
    requires Tallied(c, q, max) && Waiting(q, id) != []
    ensures Tallied(c[id := Floor0(Count(c, id) - 1)], Popped(q, id), max)
  {
    var d, r := c[id := Floor0(Count(c, id) - 1)], Popped(q, id);
    forall k ensures Count(d, k) == |Waiting(r, k)| <= Floor0(max) {
      assert Count(c, k) == |Waiting(q, k)| <= Floor0(max);
    }
  }

  class WaitingQueues {
    var userQueues: Queues
    var departmentQueues: Queues
    var queuedUsers: Counts
    var queuedDepartments: Counts

    /** The counters are the queue lengths, and no queue is over its limit. */
    ghost predicate Valid(l: Limits)
      reads this
    {
      && Tallied(queuedUsers, userQueues, l.user.maxQueued)
      && Tallied(queuedDepartments, departmentQueues, l.department.maxQueued)
    }

    constructor (l: Limits)
      ensures Valid(l) && userQueues == map[] && departmentQueues == map[]
    {
      userQueues, departmentQueues, queuedUsers, queuedDepartments := map[], map[], map[], map[];
    }

    predicate CanEnqueue(l: Limits, user: string, department: string)
      reads this
    {
      Count(queuedUsers, user) < l.user.maxQueued &&
      (department == "" || Count(queuedDepartments, department) < l.department.maxQueued)
    }

    method Enqueue(l: Limits, user: string, department: string, now: real, later: real) returns (ok: bool)
      requires Valid(l)
      modifies this
      ensures Valid(l) && ok == old(CanEnqueue(l, user, department))
      ensures ok <==> |Waiting(old(userQueues), user)| < l.user.maxQueued
                      && (department == "" || |Waiting(old(departmentQueues), department)| < l.department.maxQueued)
      ensures userQueues == if ok then old(userQueues)[user := Waiting(old(userQueues), user) + [now]] else old(userQueues)
      ensures departmentQueues == if ok && department != ""
        then old(departmentQueues)[department := Waiting(old(departmentQueues), department) + [later]]
        else old(departmentQueues)
    {
      hide Tallied;
      TallyCounts(queuedUsers, userQueues, l.user.maxQueued, user);
      TallyCounts(queuedDepartments, departmentQueues, l.department.maxQueued, department);
      if !CanEnqueue(l, user, department) { return false; }
      PushKeepsTally(queuedUsers, userQueues, l.user.maxQueued, user, now);
      if department != "" {
        PushKeepsTally(queuedDepartments, departmentQueues, l.department.maxQueued, department, later);
      }
      if user !in userQueues {
        userQueues := userQueues[user := []];
      }
      userQueues := userQueues[user := userQueues[user] + [now]];
      assert userQueues == old(userQueues)[user := Waiting(old(userQueues), user) + [now]];
      queuedUsers := queuedUsers[user := Count(queuedUsers, user) + 1];
      if department != "" {
        if department !in departmentQueues {
          departmentQueues := departmentQueues[department := []];
        }
        departmentQueues := departmentQueues[department := departmentQueues[department] + [later]];
        assert departmentQueues == old(departmentQueues)[department := Waiting(old(departmentQueues), department) + [later]];
        queuedDepartments := queuedDepartments[department := Count(queuedDepartments, department) + 1];
      }
      ok := true;
    }

    /** First in, first out, separately for the user and for the department. */
    method Dequeue(l: Limits, user: string, department: string) returns (popped: bool)
      requires Valid(l)
      modifies this
      ensures Valid(l)
      ensures popped <==> Waiting(old(userQueues), user) != [] ||
                          (department != "" && Waiting(old(departmentQueues), department) != [])
      ensures userQueues == Popped(old(userQueues), user)
      ensures departmentQueues == if department == "" then old(departmentQueues) else Popped(old(departmentQueues), department)
    {
      hide Tallied;
      popped := false;
      if user in userQueues && userQueues[user] != [] {
        PopKeepsTally(queuedUsers, userQueues, l.user.maxQueued, user);
        userQueues := userQueues[user := userQueues[user][1..]];
        popped := true;
        queuedUsers := queuedUsers[user := Floor0(Count(queuedUsers, user) - 1)];
      }
      if department != "" && department in departmentQueues && departmentQueues[department] != [] {
        PopKeepsTally(queuedDepartments, departmentQueues, l.department.maxQueued, department);
        departmentQueues := departmentQueues[department := departmentQueues[department][1..]];
        popped := true;
        queuedDepartments := queuedDepartments[department := Floor0(Count(queuedDepartments, department) - 1)];
      }
    }

    function QueueSize(user: string, department: string): int
      reads this
    {
      if user != "" then Count(queuedUsers, user)
      else if department != "" then Count(queuedDepartments, department)
      else 0
    }

    /** Nothing is popped when the queue asked about, the user's if one is named, is empty. */
    method NotifyNext(l: Limits, user: string, department: string) returns (popped: bool)
      requires Valid(l)
      modifies this
      ensures Valid(l)
      ensures var asked := if user != "" then Waiting(old(userQueues), user)
                           else if department != "" then Waiting(old(departmentQueues), department) else [];
        && (popped <==> asked != [])
        && userQueues == (if popped then Popped(old(userQueues), user) else old(userQueues))
        && departmentQueues == (if popped && department != "" then Popped(old(departmentQueues), department)
                                else old(departmentQueues))
    {
      assert Count(queuedUsers, user) == |Waiting(userQueues, user)|;
      assert Count(queuedDepartments, department) == |Waiting(departmentQueues, department)|;
      if QueueSize(user, department) == 0 { return false; }
      popped := Dequeue(l, user, department);
    }
  }

  function Waiting(q: Queues, id: string): seq<real> {
    if id in q then q[id] else []
  }

  function Popped(q: Queues, id: string): Queues {
    if Waiting(q, id) != [] then q[id := q[id][1..]] else q
  }
}
