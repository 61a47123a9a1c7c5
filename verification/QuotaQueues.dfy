/** Waiting tasks by identity: when the user's and the department's queue hold the same tasks. */
module QuotaQueues {
  import opened Quota

  /** One waiting task; `number` tells tasks apart, the times are what the two queues hold. */
  datatype Ticket = Ticket(number: nat, user: string, department: string, now: real, later: real)

  type Lines = map<string, seq<Ticket>>

  datatype Hall = Hall(next: nat, users: Lines, departments: Lines)

  /** Enter is an accepted `enqueue`, Leave a `dequeue`; an empty department means none. */
  datatype Op = Enter(user: string, department: string, now: real, later: real) | Leave(user: string, department: string)

  function Line(lines: Lines, id: string): seq<Ticket> {
    if id in lines then lines[id] else []
  }

  function Shorter(lines: Lines, id: string): Lines {
    if Line(lines, id) == [] then lines else lines[id := Line(lines, id)[1..]]
  }

  function Step(h: Hall, op: Op): Hall {
    match op
    case Enter(user, department, now, later) =>
      var t := Ticket(h.next, user, department, now, later);
      Hall(h.next + 1, h.users[user := Line(h.users, user) + [t]],
           if department == "" then h.departments
           else h.departments[department := Line(h.departments, department) + [t]])
    case Leave(user, department) =>
      Hall(h.next, Shorter(h.users, user),
           if department == "" then h.departments else Shorter(h.departments, department))
  }

  // ----- the queues of times behind it -----

  function Nows(ts: seq<Ticket>): (r: seq<real>)
    ensures |r| == |ts| && forall i :: 0 <= i < |ts| ==> r[i] == ts[i].now
  {
    seq(|ts|, i requires 0 <= i < |ts| => ts[i].now)
  }

  function Laters(ts: seq<Ticket>): (r: seq<real>)
    ensures |r| == |ts| && forall i :: 0 <= i < |ts| ==> r[i] == ts[i].later
  {
    seq(|ts|, i requires 0 <= i < |ts| => ts[i].later)
  }

  function UserTimes(h: Hall): Queues {
    map u | u in h.users :: Nows(h.users[u])
  }

  function DepartmentTimes(h: Hall): Queues {
    map d | d in h.departments :: Laters(h.departments[d])
  }

  /** Entering does to the times what an accepted `Enqueue` does to the queues. */
  lemma EnterIsEnqueue(h: Hall, user: string, department: string, now: real, later: real)
    ensures var g := Step(h, Enter(user, department, now, later));
      && UserTimes(g) == UserTimes(h)[user := Waiting(UserTimes(h), user) + [now]]
      && DepartmentTimes(g) == if department == "" then DepartmentTimes(h)
           else DepartmentTimes(h)[department := Waiting(DepartmentTimes(h), department) + [later]]
  {
    var g := Step(h, Enter(user, department, now, later));
    assert Nows(g.users[user]) == Waiting(UserTimes(h), user) + [now];
    if department != "" {
      assert Laters(g.departments[department]) == Waiting(DepartmentTimes(h), department) + [later];
    }
  }

  /** Leaving does to the times what `Dequeue` does to the queues. */
  lemma LeaveIsDequeue(h: Hall, user: string, department: string)
    ensures var g := Step(h, Leave(user, department));
      && UserTimes(g) == Popped(UserTimes(h), user)
      && DepartmentTimes(g) == if department == "" then DepartmentTimes(h) else Popped(DepartmentTimes(h), department)
  {
    var g := Step(h, Leave(user, department));
    if Line(h.users, user) != [] {
      assert Nows(g.users[user]) == UserTimes(h)[user][1..];
    }
    if department != "" && Line(h.departments, department) != [] {
      assert Laters(g.departments[department]) == DepartmentTimes(h)[department][1..];
    }
  }

  // ----- in step -----

  /** Tickets stand in the order in which they were handed out, so each stands once. */
  ghost predicate Numbered(line: seq<Ticket>, next: nat) {
    && (forall i :: 0 <= i < |line| ==> line[i].number < next)
    && (forall i, j :: 0 <= i < j < |line| ==> line[i].number < line[j].number)
  }

  ghost predicate Proper(h: Hall) {
    && (forall u :: Numbered(Line(h.users, u), h.next) && forall t :: t in Line(h.users, u) ==> t.user == u)
    && (forall d :: Numbered(Line(h.departments, d), h.next) &&
          forall t :: t in Line(h.departments, d) ==> t.department == d && d != "")
  }

  /** A waiting task stands in both of its lines or in neither. */
  ghost predicate InStep(h: Hall) {
    && (forall u, t :: t in Line(h.users, u) && t.department != "" ==> t in Line(h.departments, t.department))
    && (forall d, t :: t in Line(h.departments, d) ==> t in Line(h.users, t.user))
  }

  /** The same task stands first in the two lines asked about; one that belongs to no department may leave alone. */
  predicate SameHead(h: Hall, op: Op) {
    op.Leave? ==>
      var us := Line(h.users, op.user);
      var ds := if op.department == "" then [] else Line(h.departments, op.department);
      && (us != [] && us[0].department != "" ==> ds != [] && ds[0] == us[0])
      && (ds != [] ==> us != [] && us[0] == ds[0])
  }

  lemma LongerNumbered(line: seq<Ticket>, t: Ticket, next: nat)
    requires Numbered(line, next) && t.number == next
    ensures Numbered(line + [t], next + 1) && Numbered(line, next + 1)
  {
  }

  lemma ShorterNumbered(lines: Lines, id: string, other: string, next: nat)
    requires Numbered(Line(lines, other), next)
    ensures Numbered(Line(Shorter(lines, id), other), next)
    ensures forall t :: t in Line(Shorter(lines, id), other) ==> t in Line(lines, other)
  {
  }

  lemma StepKeepsProper(h: Hall, op: Op)
    requires Proper(h)
    ensures Proper(Step(h, op))
  {
    hide Numbered;
    var g := Step(h, op);
    forall u ensures Numbered(Line(g.users, u), g.next) && forall t :: t in Line(g.users, u) ==> t.user == u {
      assert Numbered(Line(h.users, u), h.next);
      match op
      case Enter(user, department, now, later) =>
        LongerNumbered(Line(h.users, u), Ticket(h.next, user, department, now, later), h.next);
      case Leave(user, _) => ShorterNumbered(h.users, user, u, h.next);
    }
    forall d ensures Numbered(Line(g.departments, d), g.next) &&
                     forall t :: t in Line(g.departments, d) ==> t.department == d && d != ""
    {
      assert Numbered(Line(h.departments, d), h.next);
      match op
      case Enter(user, department, now, later) =>
        LongerNumbered(Line(h.departments, d), Ticket(h.next, user, department, now, later), h.next);
      case Leave(_, department) => ShorterNumbered(h.departments, department, d, h.next);
    }
  }

  lemma EnterKeepsStep(h: Hall, op: Op)
    requires InStep(h) && op.Enter?
    ensures InStep(Step(h, op))
  {
    hide Line;
    var g := Step(h, op);
    var one := Ticket(h.next, op.user, op.department, op.now, op.later);
    forall u, t ensures t in Line(g.users, u) <==> t in Line(h.users, u) || (u == op.user && t == one) {
      LongerHolds(h.users, op.user, one, u, t);
    }
    forall d, t ensures t in Line(g.departments, d) <==>
      t in Line(h.departments, d) || (op.department != "" && d == op.department && t == one)
    {
      if op.department != "" { LongerHolds(h.departments, op.department, one, d, t); }
    }
  }

  lemma LongerHolds(lines: Lines, id: string, one: Ticket, other: string, t: Ticket)
    ensures t in Line(lines[id := Line(lines, id) + [one]], other) <==> t in Line(lines, other) || (other == id && t == one)
  {
  }

  /** Who is left in a line when its head goes. */
  lemma ShorterHolds(lines: Lines, id: string, other: string, t: Ticket)
    requires forall i, j :: 0 <= i < j < |Line(lines, id)| ==> Line(lines, id)[i].number < Line(lines, id)[j].number
    ensures t in Line(Shorter(lines, id), other) <==>
      t in Line(lines, other) && !(id == other && Line(lines, id)[0] == t)
  {
    var line := Line(lines, id);
    if id == other && line != [] {
      assert line == [line[0]] + line[1..];
      assert forall i :: 0 <= i < |line[1..]| ==> line[1..][i] == line[i + 1];
    }
  }

  lemma LeaveKeepsStep(h: Hall, op: Op)
    requires Proper(h) && InStep(h) && op.Leave?
    ensures InStep(Step(h, op)) <==> SameHead(h, op)
  {
    hide Line, Shorter;
    var g := Step(h, op);
    assert Numbered(Line(h.users, op.user), h.next) && Numbered(Line(h.departments, op.department), h.next);
    forall u, t ensures t in Line(g.users, u) <==>
      t in Line(h.users, u) && !(op.user == u && Line(h.users, u)[0] == t)
    {
      ShorterHolds(h.users, op.user, u, t);
    }
    forall d, t ensures t in Line(g.departments, d) <==>
      t in Line(h.departments, d) && !(op.department != "" && op.department == d && Line(h.departments, d)[0] == t)
    {
      if op.department != "" { ShorterHolds(h.departments, op.department, d, t); }
    }
    var us := Line(h.users, op.user);
    var ds := if op.department == "" then [] else Line(h.departments, op.department);
    assert us != [] ==> us[0] in us && us[0].user == op.user;
    assert ds != [] ==> ds[0] in ds && ds[0].department == op.department;
    if us != [] && us[0].department != "" && !(ds != [] && ds[0] == us[0]) {
      assert us[0] in Line(g.departments, us[0].department) && us[0] !in Line(g.users, op.user);
    } else if ds != [] && !(us != [] && us[0] == ds[0]) {
      assert ds[0] in Line(g.users, ds[0].user) && ds[0] !in Line(g.departments, op.department);
    } else {
      forall u, t | t in Line(g.users, u) && t.department != "" ensures t in Line(g.departments, t.department) {
        assert t in Line(h.departments, t.department) && t.user == u;
      }
      forall d, t | t in Line(g.departments, d) ensures t in Line(g.users, t.user) {
        assert t in Line(h.users, t.user) && t.department == d;
      }
    }
  }

  predicate SameHeads(h: Hall, ops: seq<Op>)
    decreases |ops|
  {
    ops != [] ==> SameHead(h, ops[0]) && SameHeads(Step(h, ops[0]), ops[1..])
  }

  ghost predicate AlwaysInStep(h: Hall, ops: seq<Op>)
    decreases |ops|
  {
    InStep(h) && (ops != [] ==> AlwaysInStep(Step(h, ops[0]), ops[1..]))
  }

  /** The two kinds of queue stay in step throughout a history if and only if whenever tasks leave, the same task
      stands first in the user's and in the department's queue. */
  lemma {:induction false} QueuesStayInStepExactly(h: Hall, ops: seq<Op>)
    requires Proper(h) && InStep(h)
    ensures AlwaysInStep(h, ops) <==> SameHeads(h, ops)
    decreases |ops|
  {
    if ops != [] {
      hide Proper, InStep, SameHead, Step;
      var op := ops[0];
      StepKeepsProper(h, op);
      if op.Enter? { EnterIsSameHead(h, op); EnterKeepsStep(h, op); } else { LeaveKeepsStep(h, op); }
      if InStep(Step(h, op)) { QueuesStayInStepExactly(Step(h, op), ops[1..]); }
    }
  }

  lemma EnterIsSameHead(h: Hall, op: Op)
    requires op.Enter?
    ensures SameHead(h, op)
  {
  }

  lemma EmptyHallIsInStep()
    ensures Proper(Hall(0, map[], map[])) && InStep(Hall(0, map[], map[]))
  {
  }
}
