/** When the quota caps hold, exactly: event by event, for work allowed but not yet charged or started, and for
    the system-wide task limit, which no check enforces. */
module QuotaCaps {
  import opened Quota

  // ----- event by event -----

  /** The charge fits what is left of every daily cost it counts against. */
  predicate ChargeFits(b: Books, l: Limits, u: Usage) {
    && Of(b.users, u.user).totalCost + u.cost <= l.user.maxDailyCost
    && (u.department != "" ==> Of(b.departments, u.department).totalCost + u.cost <= l.department.maxDailyCost)
    && b.system.totalCost + u.cost <= l.system.maxDailyCost
  }

  predicate StartFits(b: Books, l: Limits, user: string, department: string) {
    && Count(b.running, user) < l.user.maxConcurrentTasks
    && (department != "" ==> Count(b.departmentRunning, department) < l.department.maxConcurrentTasks)
  }

  /** What a caller would have to look up before the call. */
  predicate Affordable(b: Books, l: Limits, e: Event) {
    match e
    case Record(u, day) => ChargeFits(Reset(b, day), l, u)
    case Start(user, department) => StartFits(b, l, user, department)
    case End(_, _) => true
    case Admit(q, u, day, now) =>
      Decide(Reset(b, day), l, q, now) == ALLOW ==> ChargeFits(Reset(b, day), l, u)
  }

  lemma ChargeKeepsCaps(b: Books, l: Limits, u: Usage)
    requires Sensible(l) && WithinCaps(b, l)
    ensures WithinCaps(Recorded(b, u, b.today), l) <==> ChargeFits(b, l, u)
  {
    var r := Recorded(b, u, b.today);
    assert u.user in r.users && (u.department != "" ==> u.department in r.departments);
  }

  lemma StartKeepsCaps(b: Books, l: Limits, user: string, department: string)
    requires Sensible(l) && WithinCaps(b, l)
    ensures WithinCaps(Started(b, user, department), l) <==> StartFits(b, l, user, department)
  {
    var r := Started(b, user, department);
    assert user in r.running && (department != "" ==> department in r.departmentRunning);
  }

  lemma AllowedCanStart(b: Books, l: Limits, q: Request, now: real)
    requires Decide(b, l, q, now) == ALLOW
    ensures StartFits(b, l, q.user, q.department)
  {
    hide Available;
  }

  lemma RecordedIsReset(b: Books, u: Usage, day: int)
    ensures Recorded(b, u, day) == Recorded(Reset(b, day), u, Reset(b, day).today)
    ensures Reset(b, day).today == day
  {
  }

  /** Exactly the affordable events keep every cap. */
  lemma EventKeepsCapsExactly(b: Books, l: Limits, e: Event)
    requires Sensible(l) && WithinCaps(b, l)
    ensures WithinCaps(Apply(b, l, e), l) <==> Affordable(b, l, e)
  {
    hide WithinCaps, Sensible, Reset, Recorded, Started, Ended, Decide, ChargeFits, StartFits;
    match e
    case Record(u, day) =>
      ResetKeepsCaps(b, l, day);
      RecordedIsReset(b, u, day);
      ChargeKeepsCaps(Reset(b, day), l, u);
    case Start(user, department) => StartKeepsCaps(b, l, user, department);
    case End(user, department) => EndKeepsCaps(b, l, user, department);
    case Admit(q, u, day, now) =>
      var r := Reset(b, day);
      ResetKeepsCaps(b, l, day);
      if Decide(r, l, q, now) == ALLOW {
        AllowedCanStart(r, l, q, now);
        StartKeepsCaps(r, l, q.user, q.department);
        RecordedIsReset(b, u, day);
        ChargeKeepsCaps(Started(r, q.user, q.department), l, u);
        SameCharge(r, l, q, u);
      }
  }

  lemma SameCharge(r: Books, l: Limits, q: Request, u: Usage)
    ensures ChargeFits(Started(r, q.user, q.department), l, u) == ChargeFits(r, l, u)
    ensures Started(r, q.user, q.department).today == r.today
  {
  }

  predicate AffordableRun(b: Books, l: Limits, es: seq<Event>)
    decreases |es|
  {
    es != [] ==> Affordable(b, l, es[0]) && AffordableRun(Apply(b, l, es[0]), l, es[1..])
  }

  ghost predicate AlwaysWithinCaps(b: Books, l: Limits, es: seq<Event>)
    decreases |es|
  {
    WithinCaps(b, l) && (es != [] ==> AlwaysWithinCaps(Apply(b, l, es[0]), l, es[1..]))
  }

  /** A history stays within every cost and concurrency cap throughout if and only if each event is affordable. */
  lemma {:induction false} CapsHoldExactly(b: Books, l: Limits, es: seq<Event>)
    requires Sensible(l) && WithinCaps(b, l)
    ensures AlwaysWithinCaps(b, l, es) <==> AffordableRun(b, l, es)
    decreases |es|
  {
    if es != [] {
      hide WithinCaps, Sensible, Apply, Affordable;
      EventKeepsCapsExactly(b, l, es[0]);
      if Affordable(b, l, es[0]) { CapsHoldExactly(Apply(b, l, es[0]), l, es[1..]); }
    }
  }

  // ----- tokens: only input counts, and of a department's nothing is checked -----

  ghost predicate WithinTokens(b: Books, l: Limits) {
    && (forall id | id in b.users :: b.users[id].tokensInput <= l.user.maxDailyTokens)
    && b.system.tokensInput <= l.system.maxDailyTokens
  }

  predicate TokensFit(b: Books, l: Limits, u: Usage) {
    && Of(b.users, u.user).tokensInput + u.tokensInput <= l.user.maxDailyTokens
    && b.system.tokensInput + u.tokensInput <= l.system.maxDailyTokens
  }

  predicate TokensAffordable(b: Books, l: Limits, e: Event) {
    match e
    case Record(u, day) => TokensFit(Reset(b, day), l, u)
    case Start(_, _) => true
    case End(_, _) => true
    case Admit(q, u, day, now) => Decide(Reset(b, day), l, q, now) == ALLOW ==> TokensFit(Reset(b, day), l, u)
  }

  ghost predicate SensibleTokens(l: Limits) {
    l.user.maxDailyTokens >= 0 && l.system.maxDailyTokens >= 0
  }

  lemma ChargeKeepsTokens(b: Books, l: Limits, u: Usage, day: int)
    requires SensibleTokens(l) && WithinTokens(b, l)
    ensures WithinTokens(Reset(b, day), l)
    ensures WithinTokens(Recorded(b, u, day), l) <==> TokensFit(Reset(b, day), l, u)
  {
    assert u.user in Recorded(b, u, day).users;
  }

  /** Exactly the events whose input tokens fit keep the token caps of users and the system; output tokens never
      count. */
  lemma EventKeepsTokensExactly(b: Books, l: Limits, e: Event)
    requires SensibleTokens(l) && WithinTokens(b, l)
    ensures WithinTokens(Apply(b, l, e), l) <==> TokensAffordable(b, l, e)
  {
    hide Decide, Recorded, Reset, TokensFit;
    match e
    case Record(u, day) => ChargeKeepsTokens(b, l, u, day);
    case Start(_, _) =>
    case End(_, _) =>
    case Admit(q, u, day, now) =>
      var r := Reset(b, day);
      ChargeKeepsTokens(b, l, u, day);
      var s := Started(r, q.user, q.department);
      RecordedIsReset(s, u, day);
      ResetTwice(b, q, day);
      ChargeKeepsTokens(s, l, u, day);
      SameTokens(r, l, q, u);
  }

  lemma ResetTwice(b: Books, q: Request, day: int)
    ensures var s := Started(Reset(b, day), q.user, q.department); Reset(s, day) == s
  {
  }

  lemma SameTokens(r: Books, l: Limits, q: Request, u: Usage)
    ensures TokensFit(Started(r, q.user, q.department), l, u) == TokensFit(r, l, u)
  {
  }

  predicate TokensAffordableRun(b: Books, l: Limits, es: seq<Event>)
    decreases |es|
  {
    es != [] ==> TokensAffordable(b, l, es[0]) && TokensAffordableRun(Apply(b, l, es[0]), l, es[1..])
  }

  ghost predicate AlwaysWithinTokens(b: Books, l: Limits, es: seq<Event>)
    decreases |es|
  {
    WithinTokens(b, l) && (es != [] ==> AlwaysWithinTokens(Apply(b, l, es[0]), l, es[1..]))
  }

  lemma {:induction false} TokensHoldExactly(b: Books, l: Limits, es: seq<Event>)
    requires SensibleTokens(l) && WithinTokens(b, l)
    ensures AlwaysWithinTokens(b, l, es) <==> TokensAffordableRun(b, l, es)
    decreases |es|
  {
    if es != [] {
      hide WithinTokens, SensibleTokens, Apply, TokensAffordable;
      EventKeepsTokensExactly(b, l, es[0]);
      if TokensAffordable(b, l, es[0]) { TokensHoldExactly(Apply(b, l, es[0]), l, es[1..]); }
    }
  }

  /** A request charged at no more than its estimate fits the tokens of user and system that admitted it. */
  lemma AdmissionFitsTokens(b: Books, l: Limits, q: Request, u: Usage, now: real)
    requires Decide(b, l, q, now) == ALLOW && u.user == q.user && u.tokensInput <= q.tokens
    ensures TokensFit(b, l, u)
  {
    hide Available;
  }

  /** A department may be far over its daily tokens: a request within its own estimate is still allowed. */
  lemma DepartmentTokensAreNotEnforced(user: string, department: string, excess: nat, day: int, now: real)
    requires department != ""
    ensures var l := DEFAULT_LIMITS;
      var spent := Snapshot(l.department.maxDailyTokens + excess, 0, 0.0, 1);
      var b := Books(day, map[], map[department := spent], NOTHING, map[], map[], 100.0, now);
      Decide(b, l, Request(user, department, 0.0, 1), now) == ALLOW
  {
  }

  // ----- allowed, not yet charged -----

  /** The charges recorded one after the other, on one day. */
  function RecordAll(b: Books, us: seq<Usage>): Books
    decreases |us|
  {
    if us == [] then b else RecordAll(Recorded(b, us[0], b.today), us[1..])
  }

  function CostOf(us: seq<Usage>, p: Usage -> bool): real {
    if us == [] then 0.0 else (if p(us[0]) then us[0].cost else 0.0) + CostOf(us[1..], p)
  }

  function ByUser(user: string): Usage -> bool {
    (u: Usage) => u.user == user
  }

  function ByDepartment(department: string): Usage -> bool {
    (u: Usage) => u.department == department
  }

  function Anyone(): Usage -> bool {
    (u: Usage) => true
  }

  /** Recorded plus pending is within the daily cost of every user, every department and the system. */
  ghost predicate PendingFits(b: Books, l: Limits, us: seq<Usage>) {
    && (forall user: string :: Of(b.users, user).totalCost + CostOf(us, ByUser(user)) <= l.user.maxDailyCost)
    && (forall d: string :: d != "" ==>
          Of(b.departments, d).totalCost + CostOf(us, ByDepartment(d)) <= l.department.maxDailyCost)
    && b.system.totalCost + CostOf(us, Anyone()) <= l.system.maxDailyCost
  }

  ghost predicate Charged(b: Books, us: seq<Usage>, r: Books) {
    && (forall user: string :: Of(r.users, user).totalCost == Of(b.users, user).totalCost + CostOf(us, ByUser(user)))
    && (forall d: string :: d != "" ==>
          Of(r.departments, d).totalCost == Of(b.departments, d).totalCost + CostOf(us, ByDepartment(d)))
    && ("" in r.departments <==> "" in b.departments)
    && Of(r.departments, "") == Of(b.departments, "")
    && r.system.totalCost == b.system.totalCost + CostOf(us, Anyone())
    && r.running == b.running && r.departmentRunning == b.departmentRunning && r.today == b.today
  }

  lemma CostCons(u: Usage, us: seq<Usage>, p: Usage -> bool)
    ensures CostOf([u] + us, p) == (if p(u) then u.cost else 0.0) + CostOf(us, p)
  {
    assert ([u] + us)[1..] == us;
  }

  lemma ChargedOnce(b: Books, u: Usage, us: seq<Usage>, r: Books)
    requires Charged(Recorded(b, u, b.today), us, r)
    ensures Charged(b, [u] + us, r)
  {
    hide CostOf;
    forall user: string
      ensures Of(r.users, user).totalCost == Of(b.users, user).totalCost + CostOf([u] + us, ByUser(user))
    {
      UserChargedOnce(b, u, us, r, user);
    }
    forall d: string | d != ""
      ensures Of(r.departments, d).totalCost == Of(b.departments, d).totalCost + CostOf([u] + us, ByDepartment(d))
    {
      DepartmentChargedOnce(b, u, us, r, d);
    }
    CostCons(u, us, Anyone());
  }

  lemma UserChargedOnce(b: Books, u: Usage, us: seq<Usage>, r: Books, user: string)
    requires Charged(Recorded(b, u, b.today), us, r)
    ensures Of(r.users, user).totalCost == Of(b.users, user).totalCost + CostOf([u] + us, ByUser(user))
  {
    hide CostOf;
    CostCons(u, us, ByUser(user));
    assert Of(r.users, user).totalCost
        == Of(Recorded(b, u, b.today).users, user).totalCost + CostOf(us, ByUser(user));
  }

  lemma DepartmentChargedOnce(b: Books, u: Usage, us: seq<Usage>, r: Books, d: string)
    requires Charged(Recorded(b, u, b.today), us, r) && d != ""
    ensures Of(r.departments, d).totalCost == Of(b.departments, d).totalCost + CostOf([u] + us, ByDepartment(d))
  {
    hide CostOf;
    CostCons(u, us, ByDepartment(d));
    assert Of(r.departments, d).totalCost
        == Of(Recorded(b, u, b.today).departments, d).totalCost + CostOf(us, ByDepartment(d));
  }

  lemma {:induction false} RecordAllCharges(b: Books, us: seq<Usage>)
    ensures Charged(b, us, RecordAll(b, us))
    decreases |us|
  {
    if us != [] {
      hide Charged, Recorded;
      RecordAllCharges(Recorded(b, us[0], b.today), us[1..]);
      ChargedOnce(b, us[0], us[1..], RecordAll(b, us));
      assert us == [us[0]] + us[1..];
    }
  }

  /** However the checks before them went, recording the pending charges keeps every cap if and only if recorded
      plus pending fits at each level. */
  lemma {:induction false} PendingChargesExactly(b: Books, l: Limits, us: seq<Usage>)
    requires Sensible(l) && WithinCaps(b, l)
    ensures WithinCaps(RecordAll(b, us), l) <==> PendingFits(b, l, us)
  {
    hide RecordAll, CostOf;
    var r := RecordAll(b, us);
    RecordAllCharges(b, us);
    if WithinCaps(r, l) {
      forall user: string ensures Of(r.users, user).totalCost <= l.user.maxDailyCost {
      }
      forall d: string ensures Of(r.departments, d).totalCost <= l.department.maxDailyCost {
      }
    }
    if PendingFits(b, l, us) {
      forall user | user in r.users ensures r.users[user].totalCost <= l.user.maxDailyCost {
        assert Of(r.users, user).totalCost == Of(b.users, user).totalCost + CostOf(us, ByUser(user));
      }
      forall d | d in r.departments ensures r.departments[d].totalCost <= l.department.maxDailyCost {
        assert d == "" ==> d in b.departments && r.departments[d] == b.departments[d];
        assert d != "" ==> Of(r.departments, d).totalCost == Of(b.departments, d).totalCost + CostOf(us, ByDepartment(d));
      }
    }
  }

  lemma {:induction false} CostConcat(a: seq<Usage>, b: seq<Usage>, p: Usage -> bool)
    ensures CostOf(a + b, p) == CostOf(a, p) + CostOf(b, p)
  {
    if a == [] {
      assert a + b == b;
    } else {
      assert (a + b)[1..] == a[1..] + b;
      CostConcat(a[1..], b, p);
    }
  }

  lemma TakenOut<T>(s: seq<T>, i: nat)
    requires i < |s|
    ensures multiset(s) == multiset(s[..i] + s[i + 1..]) + multiset{s[i]}
  {
    assert s == s[..i] + ([s[i]] + s[i + 1..]);
  }

  lemma Removed<T>(us: seq<T>, vs: seq<T>) returns (i: nat)
    requires us != [] && multiset(us) == multiset(vs)
    ensures i < |vs| && vs[i] == us[0] && multiset(us[1..]) == multiset(vs[..i] + vs[i + 1..])
  {
    assert us[0] in multiset(us);
    i :| 0 <= i < |vs| && vs[i] == us[0];
    assert us[..0] + us[1..] == us[1..];
    SameWithoutIt(multiset(us[1..]), multiset(vs[..i] + vs[i + 1..]), us[0]) by {
      TakenOut(us, 0);
      TakenOut(vs, i);
    }
  }

  lemma SameWithoutIt<T>(a: multiset<T>, b: multiset<T>, x: T)
    requires a + multiset{x} == b + multiset{x}
    ensures a == b
  {
    forall y ensures a[y] == b[y] {
      assert (a + multiset{x})[y] == (b + multiset{x})[y];
    }
  }

  lemma {:induction false} CostOfPermutation(us: seq<Usage>, vs: seq<Usage>, p: Usage -> bool)
    requires multiset(us) == multiset(vs)
    ensures CostOf(us, p) == CostOf(vs, p)
    decreases |us|
  {
    if us == [] {
      assert |multiset(vs)| == 0;
    } else {
      var i := Removed(us, vs);
      CostOfPermutation(us[1..], vs[..i] + vs[i + 1..], p);
      CostWithout(vs, i, p);
    }
  }

  lemma CostWithout(vs: seq<Usage>, i: nat, p: Usage -> bool)
    requires i < |vs|
    ensures CostOf(vs, p) == (if p(vs[i]) then vs[i].cost else 0.0) + CostOf(vs[..i] + vs[i + 1..], p)
  {
    hide CostOf;
    var before, v, after := vs[..i], vs[i], vs[i + 1..];
    assert vs == before + ([v] + after);
    CostConcat(before, [v] + after, p);
    CostCons(v, after, p);
    CostConcat(before, after, p);
  }

  /** The order in which pending charges arrive does not matter. */
  lemma {:induction false} OrderOfChargesDoesNotMatter(b: Books, l: Limits, us: seq<Usage>, vs: seq<Usage>)
    requires Sensible(l) && WithinCaps(b, l) && multiset(us) == multiset(vs)
    ensures WithinCaps(RecordAll(b, us), l) <==> WithinCaps(RecordAll(b, vs), l)
  {
    hide WithinCaps, Sensible, RecordAll, CostOf;
    PendingChargesExactly(b, l, us);
    PendingChargesExactly(b, l, vs);
    forall p: Usage -> bool ensures CostOf(us, p) == CostOf(vs, p) {
      CostOfPermutation(us, vs, p);
    }
  }

  lemma {:induction false} LessCostsLess(us: seq<Usage>, k: nat, p: Usage -> bool)
    requires k <= |us| && forall u | u in us :: u.cost >= 0.0
    ensures CostOf(us[..k], p) <= CostOf(us, p)
  {
    assert us == us[..k] + us[k..];
    CostConcat(us[..k], us[k..], p);
    CostNotNegative(us[k..], p);
  }

  lemma {:induction false} CostNotNegative(us: seq<Usage>, p: Usage -> bool)
    requires forall u | u in us :: u.cost >= 0.0
    ensures CostOf(us, p) >= 0.0
  {
    if us != [] { CostNotNegative(us[1..], p); }
  }

  /** With no negative cost, no cap is passed on the way there either. */
  lemma {:induction false} NoCapIsPassedOnTheWay(b: Books, l: Limits, us: seq<Usage>, k: nat)
    requires Sensible(l) && WithinCaps(b, l) && (forall u | u in us :: u.cost >= 0.0)
    requires PendingFits(b, l, us) && k <= |us|
    ensures WithinCaps(RecordAll(b, us[..k]), l)
  {
    hide WithinCaps, Sensible, RecordAll, CostOf;
    forall p: Usage -> bool ensures CostOf(us[..k], p) <= CostOf(us, p) {
      LessCostsLess(us, k, p);
    }
    forall user: string ensures Of(b.users, user).totalCost + CostOf(us[..k], ByUser(user)) <= l.user.maxDailyCost {
      assert CostOf(us[..k], ByUser(user)) <= CostOf(us, ByUser(user));
    }
    forall d: string | d != ""
      ensures Of(b.departments, d).totalCost + CostOf(us[..k], ByDepartment(d)) <= l.department.maxDailyCost
    {
      assert CostOf(us[..k], ByDepartment(d)) <= CostOf(us, ByDepartment(d));
    }
    PendingChargesExactly(b, l, us[..k]);
  }

  // ----- allowed, not yet started -----

  datatype Task = Task(user: string, department: string)

  function StartAll(b: Books, ts: seq<Task>): Books
    decreases |ts|
  {
    if ts == [] then b else StartAll(Started(b, ts[0].user, ts[0].department), ts[1..])
  }

  function UserStarts(ts: seq<Task>, user: string): nat {
    if ts == [] then 0 else (if ts[0].user == user then 1 else 0) + UserStarts(ts[1..], user)
  }

  function DepartmentStarts(ts: seq<Task>, department: string): nat {
    if ts == [] then 0 else (if ts[0].department == department then 1 else 0) + DepartmentStarts(ts[1..], department)
  }

  /** Running plus pending is within the concurrency of every user and department. */
  ghost predicate StartsFit(b: Books, l: Limits, ts: seq<Task>) {
    && (forall user: string :: Count(b.running, user) + UserStarts(ts, user) <= l.user.maxConcurrentTasks)
    && (forall d: string :: d != "" ==>
          Count(b.departmentRunning, d) + DepartmentStarts(ts, d) <= l.department.maxConcurrentTasks)
  }

  ghost predicate StartedAll(b: Books, ts: seq<Task>, r: Books) {
    && (forall user: string :: Count(r.running, user) == Count(b.running, user) + UserStarts(ts, user))
    && (forall d: string :: d != "" ==>
          Count(r.departmentRunning, d) == Count(b.departmentRunning, d) + DepartmentStarts(ts, d))
    && ("" in r.departmentRunning <==> "" in b.departmentRunning)
    && Count(r.departmentRunning, "") == Count(b.departmentRunning, "")
    && r.users == b.users && r.departments == b.departments && r.system == b.system
  }

  lemma StartedOnce(b: Books, t: Task, ts: seq<Task>, r: Books)
    requires StartedAll(Started(b, t.user, t.department), ts, r)
    ensures StartedAll(b, [t] + ts, r)
  {
    var one := Started(b, t.user, t.department);
    var all := [t] + ts;
    assert all[1..] == ts;
    forall user: string ensures Count(r.running, user) == Count(b.running, user) + UserStarts(all, user) {
      assert Count(r.running, user) == Count(one.running, user) + UserStarts(ts, user);
    }
    forall d: string | d != ""
      ensures Count(r.departmentRunning, d) == Count(b.departmentRunning, d) + DepartmentStarts(all, d)
    {
      assert Count(r.departmentRunning, d) == Count(one.departmentRunning, d) + DepartmentStarts(ts, d);
    }
  }

  lemma {:induction false} StartAllStarts(b: Books, ts: seq<Task>)
    ensures StartedAll(b, ts, StartAll(b, ts))
    decreases |ts|
  {
    if ts != [] {
      hide StartedAll, Started;
      StartAllStarts(Started(b, ts[0].user, ts[0].department), ts[1..]);
      StartedOnce(b, ts[0], ts[1..], StartAll(b, ts));
      assert ts == [ts[0]] + ts[1..];
    }
  }

  /** Starting every task that was allowed keeps the concurrency caps if and only if running plus pending fits. */
  lemma {:induction false} PendingStartsExactly(b: Books, l: Limits, ts: seq<Task>)
    requires Sensible(l) && WithinCaps(b, l)
    ensures WithinCaps(StartAll(b, ts), l) <==> StartsFit(b, l, ts)
  {
    hide StartAll, UserStarts, DepartmentStarts;
    var r := StartAll(b, ts);
    StartAllStarts(b, ts);
    if WithinCaps(r, l) {
      forall user: string ensures Count(r.running, user) <= l.user.maxConcurrentTasks {
      }
      forall d: string ensures Count(r.departmentRunning, d) <= l.department.maxConcurrentTasks {
      }
    }
    if StartsFit(b, l, ts) {
      forall user | user in r.running ensures r.running[user] <= l.user.maxConcurrentTasks {
        assert Count(r.running, user) == Count(b.running, user) + UserStarts(ts, user);
      }
      forall d | d in r.departmentRunning ensures r.departmentRunning[d] <= l.department.maxConcurrentTasks {
        assert d == "" ==> d in b.departmentRunning && r.departmentRunning[d] == b.departmentRunning[d];
        assert d != "" ==>
          Count(r.departmentRunning, d) == Count(b.departmentRunning, d) + DepartmentStarts(ts, d);
      }
    }
  }

  // ----- the system-wide task limit -----

  /** All running tasks. */
  ghost function Total(c: Counts): int {
    if c == map[] then 0
    else
      var k :| k in c;
      c[k] + Total(c - {k})
  }

  lemma {:induction false} TotalWithout(c: Counts, k: string)
    requires k in c
    ensures Total(c) == c[k] + Total(c - {k})
    decreases |c|
  {
    var j :| j in c && Total(c) == c[j] + Total(c - {j});
    if j != k {
      TotalWithout(c - {j}, k);
      TotalWithout(c - {k}, j);
      assert c - {j} - {k} == c - {k} - {j};
    }
  }

  lemma {:induction false} TotalUpdated(c: Counts, k: string, n: int)
    ensures Total(c[k := n]) == Total(c) - Count(c, k) + n
  {
    var d := c[k := n];
    TotalWithout(d, k);
    if k in c {
      TotalWithout(c, k);
      assert d - {k} == c - {k};
    } else {
      assert d - {k} == c;
    }
  }

  predicate NoneNegative(c: Counts) {
    forall id | id in c :: c[id] >= 0
  }

  ghost predicate WithinSystem(b: Books, l: Limits) {
    Total(b.running) <= l.system.maxConcurrentTasks
  }

  predicate StartsTask(b: Books, l: Limits, e: Event) {
    match e
    case Record(_, _) => false
    case Start(_, _) => true
    case End(_, _) => false
    case Admit(q, _, day, now) => Decide(Reset(b, day), l, q, now) == ALLOW
  }

  /** An event keeps the number of running tasks within the system's limit if and only if it starts none or there
      is still room for one. */
  lemma EventKeepsSystemExactly(b: Books, l: Limits, e: Event)
    requires NoneNegative(b.running) && WithinSystem(b, l)
    ensures NoneNegative(Apply(b, l, e).running)
    ensures WithinSystem(Apply(b, l, e), l) <==>
      (StartsTask(b, l, e) ==> Total(b.running) < l.system.maxConcurrentTasks)
  {
    hide Decide, Total;
    match e
    case Record(u, day) =>
    case Start(user, department) => TotalUpdated(b.running, user, Count(b.running, user) + 1);
    case End(user, department) => TotalUpdated(b.running, user, Floor0(Count(b.running, user) - 1));
    case Admit(q, u, day, now) => TotalUpdated(b.running, q.user, Count(b.running, q.user) + 1);
  }

  ghost predicate RoomForEach(b: Books, l: Limits, es: seq<Event>)
    decreases |es|
  {
    es != [] ==>
      && (StartsTask(b, l, es[0]) ==> Total(b.running) < l.system.maxConcurrentTasks)
      && RoomForEach(Apply(b, l, es[0]), l, es[1..])
  }

  ghost predicate AlwaysWithinSystem(b: Books, l: Limits, es: seq<Event>)
    decreases |es|
  {
    WithinSystem(b, l) && (es != [] ==> AlwaysWithinSystem(Apply(b, l, es[0]), l, es[1..]))
  }

  /** The system's task limit holds throughout a history if and only if every task that starts finds room,
      which is for the callers to see to. */
  lemma {:induction false} SystemLimitHoldsExactly(b: Books, l: Limits, es: seq<Event>)
    requires NoneNegative(b.running) && WithinSystem(b, l)
    ensures AlwaysWithinSystem(b, l, es) <==> RoomForEach(b, l, es)
    decreases |es|
  {
    if es != [] {
      hide WithinSystem, Apply, StartsTask, NoneNegative;
      EventKeepsSystemExactly(b, l, es[0]);
      if WithinSystem(Apply(b, l, es[0]), l) { SystemLimitHoldsExactly(Apply(b, l, es[0]), l, es[1..]); }
    }
  }

  // ----- a crowd the checks let in -----

  function Name(i: nat): string {
    if i == 0 then "u" else Name(i - 1) + "u"
  }

  lemma {:induction false} NameLength(i: nat)
    ensures |Name(i)| == i + 1
  {
    if i > 0 { NameLength(i - 1); }
  }

  /** One free task for the i-th user, taken through check, start and record. */
  function Visit(i: nat, day: int, now: real): Event {
    Admit(Request(Name(i), "", 0.0, 0), Usage(Name(i), "", 0, 0, 0.0), day, now)
  }

  function Opening(day: int, now: real): Books {
    Books(day, map[], map[], NOTHING, map[], map[], 100.0, now)
  }

  function CrowdBooks(n: nat, day: int, now: real): Books {
    if n == 0 then Opening(day, now) else Apply(CrowdBooks(n - 1, day, now), DEFAULT_LIMITS, Visit(n - 1, day, now))
  }

  ghost predicate Crowded(b: Books, n: nat, day: int, now: real) {
    && b.today == day && b.system.totalCost == 0.0 && b.system.tokensInput == 0
    && b.llmTokens == 100.0 && b.llmLastRefill == now
    && (forall id | id in b.users :: |id| <= n)
    && (forall id | id in b.running :: |id| <= n)
    && Total(b.running) == n
  }

  lemma NewcomerIsAllowed(b: Books, n: nat, day: int, now: real)
    requires Crowded(b, n, day, now)
    ensures Decide(Reset(b, day), DEFAULT_LIMITS, Visit(n, day, now).request, now) == ALLOW
  {
    hide Total, Name;
    NameLength(n);
  }

  lemma NewcomerJoins(b: Books, n: nat, day: int, now: real)
    requires Crowded(b, n, day, now)
    ensures Crowded(Recorded(Started(b, Name(n), ""), Visit(n, day, now).usage, day), n + 1, day, now)
  {
    hide Total, Name;
    NameLength(n);
    TotalUpdated(b.running, Name(n), 1);
  }

  /** Under the default limits any number of users are admitted at once, each with one running task. */
  lemma {:induction false} NobodyIsTurnedAway(n: nat, day: int, now: real)
    ensures var b := CrowdBooks(n, day, now);
      && Crowded(b, n, day, now)
      && Decide(Reset(b, day), DEFAULT_LIMITS, Visit(n, day, now).request, now) == ALLOW
  {
    hide Total, Name, Decide, Recorded, Started;
    if n > 0 {
      var before := CrowdBooks(n - 1, day, now);
      NobodyIsTurnedAway(n - 1, day, now);
      NewcomerJoins(before, n - 1, day, now);
    } else {
      NobodyIsHere(day, now);
    }
    NewcomerIsAllowed(CrowdBooks(n, day, now), n, day, now);
  }

  lemma NobodyIsHere(day: int, now: real)
    ensures Crowded(Opening(day, now), 0, day, now)
  {
  }

  /** So the tasks running in the system can be as many above its limit as there are users. */
  lemma SystemLimitIsNotEnforced(excess: nat, day: int, now: real)
    ensures var n := DEFAULT_LIMITS.system.maxConcurrentTasks + excess;
      var b := CrowdBooks(n, day, now);
      && Total(b.running) == n && Decide(Reset(b, day), DEFAULT_LIMITS, Visit(n, day, now).request, now) == ALLOW
  {
    hide Total, CrowdBooks, Decide;
    NobodyIsTurnedAway(DEFAULT_LIMITS.system.maxConcurrentTasks + excess, day, now);
  }
}
