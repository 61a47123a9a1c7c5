/** The Redis lock of one resource, command by command. A call is a short program of atomic commands
    (SET NX EX, GET, EXPIRE, DEL); calls of any number of holders interleave, and so does key expiry. */
module RedisLock {
  type Holder = string
  type CallId = nat
  type Ttl = t: int | t > 0 witness 1

  datatype Key = Absent | Held(holder: Holder, expires: int)

  /** The next command of a call. */
  datatype Command =
    | AcquireSet(ttl: Ttl) | AcquireGet(ttl: Ttl) | AcquireExpire(ttl: Ttl)
    | ReleaseGet | ReleaseDel
    | BeatGet(ttl: Ttl) | BeatExpire(ttl: Ttl)

  datatype Call = Call(holder: Holder, next: Command)

  /** leases: until when each holder has last been told that it owns the lock. */
  datatype State = State(now: int, key: Key, calls: map<CallId, Call>, leases: map<Holder, int>)

  datatype Op = Acquire(ttl: Ttl) | Release | Heartbeat(ttl: Ttl)

  datatype Step =
    | Tick(until: int)
    | Begin(id: CallId, holder: Holder, op: Op)
    | Execute(id: CallId)

  const START := State(0, Absent, map[], map[])

  function First(op: Op): Command {
    match op
    case Acquire(ttl) => AcquireSet(ttl)
    case Release => ReleaseGet
    case Heartbeat(ttl) => BeatGet(ttl)
  }

  predicate Enabled(s: State, step: Step) {
    match step
    case Tick(t) => s.now <= t
    case Begin(id, _, _) => id !in s.calls
    case Execute(id) => id in s.calls
  }

  function Continue(s: State, id: CallId, next: Command): State
    requires id in s.calls
  {
    s.(calls := s.calls[id := s.calls[id].(next := next)])
  }

  function Finish(s: State, id: CallId): State {
    s.(calls := s.calls - {id})
  }

  function Grant(s: State, holder: Holder, ttl: Ttl): State {
    s.(leases := s.leases[holder := s.now + ttl])
  }

  /** EXPIRE acts on whatever key is there, whoever holds it. */
  function Prolong(s: State, ttl: Ttl): State {
    if s.key.Held? then s.(key := s.key.(expires := s.now + ttl)) else s
  }

  predicate Owns(s: State, holder: Holder) {
    s.key.Held? && s.key.holder == holder
  }

  function Next(s: State, step: Step): State
    requires Enabled(s, step)
  {
    match step
    case Tick(t) =>
      if s.key.Held? && s.key.expires <= t then s.(now := t, key := Absent) else s.(now := t)
    case Begin(id, holder, op) =>
      s.(calls := s.calls[id := Call(holder, First(op))])
    case Execute(id) =>
      var h := s.calls[id].holder;
      match s.calls[id].next
      case AcquireSet(ttl) =>
        if s.key.Absent? then Finish(Grant(s.(key := Held(h, s.now + ttl)), h, ttl), id)
        else Continue(s, id, AcquireGet(ttl))
      case AcquireGet(ttl) => if Owns(s, h) then Continue(s, id, AcquireExpire(ttl)) else Finish(s, id)
      case AcquireExpire(ttl) => Finish(Grant(Prolong(s, ttl), h, ttl), id)
      case ReleaseGet => if Owns(s, h) then Continue(s, id, ReleaseDel) else Finish(s, id)
      case ReleaseDel => Finish(s.(key := Absent, leases := s.leases - {h}), id)
      case BeatGet(ttl) => if Owns(s, h) then Continue(s, id, BeatExpire(ttl)) else Finish(s, id)
      case BeatExpire(ttl) => if s.key.Held? then Finish(Grant(Prolong(s, ttl), h, ttl), id) else Finish(s, id)
  }

  // ----- a call on its own -----

  /** A call begun and run to its end with nothing in between, with up to three commands. */
  function Undisturbed(s: State, id: CallId, holder: Holder, op: Op): State
    requires id !in s.calls
  {
    var a := Next(s, Begin(id, holder, op));
    var b := Next(a, Execute(id));
    var c := if id in b.calls then Next(b, Execute(id)) else b;
    if id in c.calls then Next(c, Execute(id)) else c
  }

  /** Undisturbed, every call does what it is for and ends: an acquire takes a free lock or renews its own and is
      refused another's; a release frees its own lock and touches no other; a heartbeat prolongs its own alone. */
  lemma UndisturbedCalls(s: State, id: CallId, h: Holder, ttl: Ttl)
    requires id !in s.calls
    ensures var own := s.key.Held? && s.key.holder == h;
      && Undisturbed(s, id, h, Acquire(ttl)) == (if s.key.Absent? || own
           then s.(key := Held(h, s.now + ttl), leases := s.leases[h := s.now + ttl]) else s)
      && Undisturbed(s, id, h, Release) == (if own then s.(key := Absent, leases := s.leases - {h}) else s)
      && Undisturbed(s, id, h, Heartbeat(ttl)) == (if own
           then s.(key := Held(h, s.now + ttl), leases := s.leases[h := s.now + ttl]) else s)
  {
    hide Undisturbed;
    UndisturbedAcquire(s, id, h, ttl);
    UndisturbedRelease(s, id, h);
    UndisturbedHeartbeat(s, id, h, ttl);
  }

  lemma UndisturbedAcquire(s: State, id: CallId, h: Holder, ttl: Ttl)
    requires id !in s.calls
    ensures Undisturbed(s, id, h, Acquire(ttl)) == if s.key.Absent? || s.key.holder == h
      then s.(key := Held(h, s.now + ttl), leases := s.leases[h := s.now + ttl]) else s
  {
  }

  lemma UndisturbedRelease(s: State, id: CallId, h: Holder)
    requires id !in s.calls
    ensures Undisturbed(s, id, h, Release) == if s.key.Held? && s.key.holder == h
      then s.(key := Absent, leases := s.leases - {h}) else s
  {
  }

  lemma UndisturbedHeartbeat(s: State, id: CallId, h: Holder, ttl: Ttl)
    requires id !in s.calls
    ensures Undisturbed(s, id, h, Heartbeat(ttl)) == if s.key.Held? && s.key.holder == h
      then s.(key := Held(h, s.now + ttl), leases := s.leases[h := s.now + ttl]) else s
  {
  }

  /** Past its GET a call acts on whatever key is there: DEL removes it and EXPIRE prolongs it, whoever holds it. With
      no key left, an acquire still reports success and a heartbeat does not. */
  lemma CommandsActOnAnyKey(s: State, id: CallId, ttl: Ttl)
    requires id in s.calls
    ensures var h := s.calls[id].holder; var t := Next(s, Execute(id)); var done := s.calls - {id};
      && (s.calls[id].next == ReleaseDel ==> t == s.(key := Absent, calls := done, leases := s.leases - {h}))
      && (s.calls[id].next == AcquireExpire(ttl) ==> t == s.(calls := done, leases := s.leases[h := s.now + ttl],
            key := if s.key.Held? then Held(s.key.holder, s.now + ttl) else Absent))
      && (s.calls[id].next == BeatExpire(ttl) ==> t == if s.key.Absent? then s.(calls := done)
            else s.(calls := done, leases := s.leases[h := s.now + ttl], key := Held(s.key.holder, s.now + ttl)))
  {
  }

  /** A key goes exactly when its time has come. */
  lemma KeysExpireOnTime(s: State, t: int)
    requires s.now <= t
    ensures Next(s, Tick(t)).now == t && Next(s, Tick(t)).leases == s.leases && Next(s, Tick(t)).calls == s.calls
    ensures Next(s, Tick(t)).key == if s.key.Held? && t < s.key.expires then s.key else Absent
  {
  }

  predicate Leased(s: State, h: Holder) {
    h in s.leases && s.now < s.leases[h]
  }

  /** At most one holder has an unexpired lease. */
  ghost predicate Exclusive(s: State) {
    forall g, h :: Leased(s, g) && Leased(s, h) ==> g == h
  }

  /** A call between its GET, which found its own holder, and the command that relies on it. */
  predicate Armed(c: Call) {
    c.next.AcquireExpire? || c.next.ReleaseDel? || c.next.BeatExpire?
  }

  predicate Armless(s: State, except: set<CallId>) {
    forall id | id in s.calls && id !in except :: !Armed(s.calls[id])
  }

  /** The key does not go away, by expiry or by DEL, while another call still relies on it. */
  predicate Careful(s: State, step: Step)
    requires Enabled(s, step)
  {
    match step
    case Tick(t) => s.key.Held? && s.key.expires <= t ==> Armless(s, {})
    case Begin(_, _, _) => true
    case Execute(id) => s.calls[id].next.ReleaseDel? ==> Armless(s, {id})
  }

  ghost predicate Inv(s: State) {
    && (s.key.Held? ==> s.now < s.key.expires)
    && (forall h | Leased(s, h) :: Owns(s, h) && s.leases[h] <= s.key.expires)
    && (forall id | id in s.calls && Armed(s.calls[id]) :: Owns(s, s.calls[id].holder))
  }

  lemma TickKeepsInv(s: State, t: int)
    requires Inv(s) && s.now <= t && Careful(s, Tick(t))
    ensures Inv(Next(s, Tick(t)))
  {
  }

  lemma BeginKeepsInv(s: State, step: Step)
    requires Inv(s) && step.Begin? && Enabled(s, step)
    ensures Inv(Next(s, step))
  {
  }

  lemma SetKeepsInv(s: State, id: CallId)
    requires Inv(s) && id in s.calls && s.calls[id].next.AcquireSet?
    ensures Inv(Next(s, Execute(id)))
  {
  }

  lemma GetKeepsInv(s: State, id: CallId)
    requires Inv(s) && id in s.calls && !Armed(s.calls[id]) && !s.calls[id].next.AcquireSet?
    ensures Inv(Next(s, Execute(id)))
  {
  }

  lemma ExpireKeepsInv(s: State, id: CallId)
    requires Inv(s) && id in s.calls && Armed(s.calls[id]) && !s.calls[id].next.ReleaseDel?
    ensures Inv(Next(s, Execute(id)))
  {
  }

  lemma DelKeepsInv(s: State, id: CallId)
    requires Inv(s) && id in s.calls && s.calls[id].next.ReleaseDel? && Careful(s, Execute(id))
    ensures Inv(Next(s, Execute(id)))
  {
  }

  /** The invariant survives every step taken with care. */
  lemma CarefulStepKeepsInv(s: State, step: Step)
    requires Inv(s) && Enabled(s, step) && Careful(s, step)
    ensures Inv(Next(s, step))
  {
    hide Inv;
    match step
    case Tick(t) => TickKeepsInv(s, t);
    case Begin(id, holder, op) => BeginKeepsInv(s, step);
    case Execute(id) =>
      if s.calls[id].next.AcquireSet? {
        SetKeepsInv(s, id);
      } else if s.calls[id].next.ReleaseDel? {
        DelKeepsInv(s, id);
      } else if Armed(s.calls[id]) {
        ExpireKeepsInv(s, id);
      } else {
        GetKeepsInv(s, id);
      }
  }

  ghost predicate CarefulRun(s: State, steps: seq<Step>)
    decreases |steps|
  {
    steps != [] ==> Enabled(s, steps[0]) && Careful(s, steps[0]) && CarefulRun(Next(s, steps[0]), steps[1..])
  }

  ghost predicate PossibleRun(s: State, steps: seq<Step>)
    decreases |steps|
  {
    steps != [] ==> Enabled(s, steps[0]) && PossibleRun(Next(s, steps[0]), steps[1..])
  }

  ghost function Run(s: State, steps: seq<Step>): State
    requires PossibleRun(s, steps)
    decreases |steps|
  {
    if steps == [] then s else Run(Next(s, steps[0]), steps[1..])
  }

  /** Over every interleaving in which the key stays put between GET and EXPIRE or DEL, no two holders
      ever have unexpired leases at once. */
  lemma {:induction false} CarefulRunIsExclusive(s: State, steps: seq<Step>)
    requires Inv(s) && CarefulRun(s, steps)
    ensures PossibleRun(s, steps) && Inv(Run(s, steps)) && Exclusive(Run(s, steps))
    decreases |steps|
  {
    if steps != [] {
      CarefulStepKeepsInv(s, steps[0]);
      CarefulRunIsExclusive(Next(s, steps[0]), steps[1..]);
    }
  }

  /** In such a run, DEL only ever removes the caller's own key and EXPIRE only prolongs it. */
  lemma {:induction false} CarefulRunActsOnOwnKey(s: State, steps: seq<Step>, i: nat)
    requires Inv(s) && CarefulRun(s, steps) && i < |steps| && steps[i].Execute?
    ensures PossibleRun(s, steps[..i])
    ensures var here := Run(s, steps[..i]); var id := steps[i].id;
      id in here.calls && (Armed(here.calls[id]) ==> Owns(here, here.calls[id].holder))
    decreases i
  {
    if i > 0 {
      CarefulStepKeepsInv(s, steps[0]);
      CarefulRunActsOnOwnKey(Next(s, steps[0]), steps[1..], i - 1);
      assert steps[..i][1..] == steps[1..][..i - 1];
    }
  }

  /** When every holder runs one call at a time, only expiry can break the care a run needs. */
  lemma OneCallEachOnlyExpiryMatters(s: State, step: Step)
    requires Inv(s) && Enabled(s, step)
    requires forall a, b | a in s.calls && b in s.calls && a != b :: s.calls[a].holder != s.calls[b].holder
    ensures step.Execute? ==> Careful(s, step)
  {
  }

  predicate OneCallEach(s: State) {
    forall a, b | a in s.calls && b in s.calls && a != b :: s.calls[a].holder != s.calls[b].holder
  }

  /** Every holder runs one call at a time, and the key does not expire under a call past its GET. */
  ghost predicate QuietRun(s: State, steps: seq<Step>)
    decreases |steps|
  {
    steps != [] ==>
      && Enabled(s, steps[0])
      && (match steps[0]
          case Tick(t) => s.key.Held? && s.key.expires <= t ==> Armless(s, {})
          case Begin(_, h, _) => forall id | id in s.calls :: s.calls[id].holder != h
          case Execute(_) => true)
      && QuietRun(Next(s, steps[0]), steps[1..])
  }

  lemma QuietStep(s: State, steps: seq<Step>)
    requires Inv(s) && OneCallEach(s) && steps != [] && QuietRun(s, steps)
    ensures Careful(s, steps[0]) && OneCallEach(Next(s, steps[0]))
  {
    OneCallEachOnlyExpiryMatters(s, steps[0]);
  }

  lemma {:induction false} QuietRunIsCareful(s: State, steps: seq<Step>)
    requires Inv(s) && OneCallEach(s) && QuietRun(s, steps)
    ensures CarefulRun(s, steps)
    decreases |steps|
  {
    if steps != [] {
      QuietStep(s, steps);
      CarefulStepKeepsInv(s, steps[0]);
      QuietRunIsCareful(Next(s, steps[0]), steps[1..]);
    }
  }

  lemma {:induction false} QuietPrefix(s: State, steps: seq<Step>, k: nat)
    requires QuietRun(s, steps) && k <= |steps|
    ensures QuietRun(s, steps[..k])
    decreases |steps|
  {
    if k > 0 {
      QuietPrefix(Next(s, steps[0]), steps[1..], k - 1);
      assert steps[..k][1..] == steps[1..][..k - 1];
    }
  }

  /** While holders run one call at a time and no key expires under a call past its GET, at no point of a run do two
      holders have unexpired leases. */
  lemma {:induction false} QuietRunIsExclusive(s: State, steps: seq<Step>, k: nat)
    requires Inv(s) && OneCallEach(s) && QuietRun(s, steps) && k <= |steps|
    ensures PossibleRun(s, steps[..k]) && Exclusive(Run(s, steps[..k]))
  {
    hide Inv, OneCallEach, QuietRun, CarefulRun;
    QuietPrefix(s, steps, k);
    QuietRunIsCareful(s, steps[..k]);
    CarefulRunIsExclusive(s, steps[..k]);
  }
}
