/**
  * The locks a call takes, in the order it takes them: the local lock of its routing key,
  * the Redis lock of that key, and inside a creation at most one volume or disk-image lock.
  * All local locks of a replica live in one table under their names, and none is re-entrant,
  * so names that met could make calls wait for themselves or for one another.
  */
module LockOrder {
  import opened Options
  import opened TokenLease
  import opened Routing
  import opened Naming

  type Pid = nat
  type Rid = nat

  datatype Setup = Setup(distributed: bool, lockTtl: nat, diagnose: string, action: string)

  datatype Stage =
    | WantKey | WantRedis | Inside
    | WantGroup(name: string) | InGroup(held: string)
    | UnlockRedis | UnlockKey | Gone

  datatype Call = Call(rid: Rid, key: Key, got: bool, stage: Stage)

  datatype State = State(now: nat, locks: map<(Rid, string), Pid>, redis: map<string, Lease>, calls: map<Pid, Call>)

  datatype Event =
    | Begin(pid: Pid, call: Call)
    | TakeKey(pid: Pid)
    | TakeRedis(pid: Pid)
    | Degrade(pid: Pid, applied: bool)   // not acquired in time, or a Redis error
    | Ask(pid: Pid, disk: bool)          // the creation comes to a volume or disk-image lock
    | TakeGroup(pid: Pid)
    | DropGroup(pid: Pid)                // done, failed, timed out or cancelled
    | Leave(pid: Pid)                    // the body ends, however it ends
    | FreeRedis(pid: Pid, applied: bool)
    | FreeKey(pid: Pid)
    | Cancel(pid: Pid, applied: bool)    // while waiting for one of the first two locks
    | Tick(seconds: nat)
    | Crash(rid: Rid)

  function GroupName(c: Setup, g: Group): string {
    match g case Diagnose => c.diagnose case Action => c.action
  }

  /** A routing key of the group `h` can be the name of a lock of the group `g`. */
  predicate Reads(c: Setup, g: Group, h: Group) {
    ReadsAs(GroupName(c, g), h)
  }

  /** Some lock of a group can be a routing key, of whichever group. */
  predicate Crossed(c: Setup) {
    exists g: Group, h: Group :: Reads(c, g, h)
  }

  /** So it is there and back: by the group's own routing keys, or by each group's keys for the other. */
  predicate Tangled(c: Setup) {
    exists g: Group, h: Group :: Reads(c, g, h) && Reads(c, h, g)
  }

  function GroupLock(c: Setup, g: Group, disk: bool): string {
    if disk then DiskLock(GroupName(c, g)) else VolumeLock(GroupName(c, g))
  }

  /** A lock of the group the call is about. */
  predicate OwnLock(c: Setup, call: Call, n: string) {
    n == GroupLock(c, call.key.group, false) || n == GroupLock(c, call.key.group, true)
  }

  function Slot(st: State, n: string): Option<Lease> {
    if n in st.redis then Some(st.redis[n]) else None
  }

  function Name(call: Call): string {
    RouteText(call.key)
  }

  /** The volume or disk-image lock a call is concerned with. */
  function GroupLockOf(call: Call): string {
    match call.stage
    case WantGroup(n) => n
    case InGroup(n) => n
    case _ => ""
  }

  function Start(): State {
    State(0, map[], map[], map[])
  }

  predicate Can(c: Setup, st: State, e: Event) {
    match e
    case Begin(p, call) => p !in st.calls && call.stage.WantKey? && !call.got
    case Tick(_) => true
    case Crash(_) => true
    case _ =>
      && e.pid in st.calls
      && var call := st.calls[e.pid];
      match e
      case TakeKey(_) => call.stage.WantKey? && (call.rid, Name(call)) !in st.locks
      case TakeRedis(_) => call.stage.WantRedis? && Free(Slot(st, Name(call)), st.now)
      case Degrade(_, applied) => call.stage.WantRedis? && (applied ==> Free(Slot(st, Name(call)), st.now))
      case Ask(_, _) => call.stage.Inside?
      case TakeGroup(_) => call.stage.WantGroup? && (call.rid, GroupLockOf(call)) !in st.locks
      case DropGroup(_) => call.stage.WantGroup? || call.stage.InGroup?
      case Leave(_) => call.stage.Inside?
      case FreeRedis(_, _) => call.stage.UnlockRedis?
      case FreeKey(_) => call.stage.UnlockKey?
      case Cancel(_, applied) =>
        if applied then call.stage.WantRedis? && Free(Slot(st, Name(call)), st.now) else call.stage.WantKey? || call.stage.WantRedis?
  }

  function Put(st: State, p: Pid, call: Call): State {
    st.(calls := st.calls[p := call])
  }

  function Apply(c: Setup, st: State, e: Event): State
    requires Can(c, st, e)
  {
    match e
    case Begin(p, call) => Put(st, p, call)
    case Tick(d) => st.(now := st.now + d)
    case Crash(r) =>
      st.(calls := map p | p in st.calls :: if st.calls[p].rid == r then st.calls[p].(stage := Gone) else st.calls[p],
          locks := map rn | rn in st.locks && rn.0 != r :: st.locks[rn])
    case _ =>
      var call := st.calls[e.pid];
      var lease := st.redis[Name(call) := Take(e.pid, st.now, c.lockTtl).value];
      match e
      case TakeKey(p) =>
        Put(st, p, call.(stage := if c.distributed then WantRedis else Inside))
          .(locks := st.locks[(call.rid, Name(call)) := p])
      case TakeRedis(p) => Put(st, p, call.(got := true, stage := Inside)).(redis := lease)
      case Degrade(p, applied) =>
        Put(st, p, call.(stage := Inside)).(redis := if applied then lease else st.redis)
      case Ask(p, disk) => Put(st, p, call.(stage := WantGroup(GroupLock(c, call.key.group, disk))))
      case TakeGroup(p) =>
        Put(st, p, call.(stage := InGroup(GroupLockOf(call)))).(locks := st.locks[(call.rid, GroupLockOf(call)) := p])
      case DropGroup(p) =>
        Put(st, p, call.(stage := Inside))
          .(locks := if call.stage.InGroup? then st.locks - {(call.rid, GroupLockOf(call))} else st.locks)
      case Leave(p) => Put(st, p, call.(stage := if call.got then UnlockRedis else UnlockKey))
      case FreeRedis(p, applied) =>
        var freed := applied && Release(Slot(st, Name(call)), st.now, p).None?;
        Put(st, p, call.(stage := UnlockKey)).(redis := if freed then st.redis - {Name(call)} else st.redis)
      case FreeKey(p) => Put(st, p, call.(stage := Gone)).(locks := st.locks - {(call.rid, Name(call))})
      case Cancel(p, applied) =>
        Put(st, p, call.(stage := if call.stage.WantKey? then Gone else UnlockKey)).(redis := if applied then lease else st.redis)
  }

  ghost predicate IsRun(c: Setup, st: State, es: seq<Event>, t: State)
    decreases |es|
  {
    if es == [] then t == st else Can(c, st, es[0]) && IsRun(c, Apply(c, st, es[0]), es[1..], t)
  }

  // ------------------------------------------------------------------------ who has what

  predicate HasKey(call: Call) {
    !call.stage.WantKey? && !call.stage.Gone?
  }

  predicate Holds(call: Call, n: string) {
    (HasKey(call) && Name(call) == n) || call.stage == InGroup(n)
  }

  predicate StageFits(c: Setup, call: Call) {
    && (call.stage.WantGroup? ==> OwnLock(c, call, call.stage.name))
    && (call.stage.InGroup? ==> OwnLock(c, call, call.stage.held) && call.stage.held != Name(call))
  }

  /** What a call holds is its own in the table, and what is in the table is held. */
  ghost predicate TableOk(st: State) {
    && (forall p, n :: p in st.calls && Holds(st.calls[p], n) ==>
          (st.calls[p].rid, n) in st.locks && st.locks[(st.calls[p].rid, n)] == p)
    && (forall rn :: rn in st.locks ==>
          st.locks[rn] in st.calls && st.calls[st.locks[rn]].rid == rn.0 && Holds(st.calls[st.locks[rn]], rn.1))
  }

  predicate AskedRedis(call: Call) {
    !call.stage.WantKey? && !call.stage.WantRedis?
  }

  ghost predicate LeasesOk(st: State) {
    forall n :: n in st.redis ==>
      st.redis[n].token in st.calls && AskedRedis(st.calls[st.redis[n].token]) && Name(st.calls[st.redis[n].token]) == n
  }

  ghost predicate Inv(c: Setup, st: State) {
    && TableOk(st) && LeasesOk(st)
    && (forall p :: p in st.calls ==> StageFits(c, st.calls[p]))
  }

  /** A call wants the lock of its group that another has as its routing key only where the names meet. */
  lemma MeetingReads(c: Setup, call: Call, k: Key, n: string)
    requires OwnLock(c, call, n) && RouteText(k) == n
    ensures Reads(c, call.key.group, k.group)
  {
    CollidesIff(GroupName(c, call.key.group), k.group);
  }

  /** A step of a call that touches no local lock. */
  lemma KeepsTable(st: State, p: Pid, call: Call, t: State)
    requires TableOk(st) && t.locks == st.locks && t.calls == st.calls[p := call]
    requires p in st.calls ==> call.rid == st.calls[p].rid && (forall n :: Holds(call, n) <==> Holds(st.calls[p], n))
    requires p !in st.calls ==> forall n :: !Holds(call, n)
    ensures TableOk(t)
  {
  }

  lemma TakingKeepsTable(st: State, p: Pid, call: Call, n: string, t: State)
    requires TableOk(st) && p in st.calls && call.rid == st.calls[p].rid && (call.rid, n) !in st.locks
    requires forall m :: Holds(call, m) <==> Holds(st.calls[p], m) || m == n
    requires t.locks == st.locks[(call.rid, n) := p] && t.calls == st.calls[p := call]
    ensures TableOk(t)
  {
  }

  lemma FreeingKeepsTable(st: State, p: Pid, call: Call, n: string, t: State)
    requires TableOk(st) && p in st.calls && call.rid == st.calls[p].rid && Holds(st.calls[p], n)
    requires forall m :: Holds(call, m) <==> Holds(st.calls[p], m) && m != n
    requires t.locks == st.locks - {(call.rid, n)} && t.calls == st.calls[p := call]
    ensures TableOk(t)
  {
  }

  lemma CrashKeepsTable(c: Setup, st: State, e: Event)
    requires TableOk(st) && e.Crash?
    ensures TableOk(Apply(c, st, e))
  {
    var t := Apply(c, st, e);
    forall p, n | p in t.calls && Holds(t.calls[p], n)
      ensures (t.calls[p].rid, n) in t.locks && t.locks[(t.calls[p].rid, n)] == p
    {
      assert t.calls[p] == st.calls[p];
    }
  }

  lemma TakingStep(c: Setup, st: State, e: Event)
    requires Inv(c, st) && Can(c, st, e) && (e.TakeKey? || e.TakeGroup?)
    ensures TableOk(Apply(c, st, e))
  {
    var t := Apply(c, st, e);
    var call := st.calls[e.pid];
    TakingKeepsTable(st, e.pid, t.calls[e.pid], if e.TakeKey? then Name(call) else GroupLockOf(call), t);
  }

  lemma FreeingStep(c: Setup, st: State, e: Event)
    requires Inv(c, st) && Can(c, st, e)
    requires e.FreeKey? || (e.DropGroup? && st.calls[e.pid].stage.InGroup?)
    ensures TableOk(Apply(c, st, e))
  {
    var t := Apply(c, st, e);
    var call := st.calls[e.pid];
    FreeingKeepsTable(st, e.pid, t.calls[e.pid], if e.FreeKey? then Name(call) else GroupLockOf(call), t);
  }

  lemma StepKeepsTable(c: Setup, st: State, e: Event)
    requires Inv(c, st) && Can(c, st, e)
    ensures TableOk(Apply(c, st, e))
  {
    if e.TakeKey? || e.TakeGroup? {
      TakingStep(c, st, e);
    } else if e.FreeKey? || (e.DropGroup? && st.calls[e.pid].stage.InGroup?) {
      FreeingStep(c, st, e);
    } else if e.Crash? {
      CrashKeepsTable(c, st, e);
    } else if !e.Tick? {
      var t := Apply(c, st, e);
      KeepsTable(st, e.pid, t.calls[e.pid], t);
    }
  }

  /** A lease is taken in the name of the call that takes it. */
  lemma KeepsLeases(st: State, p: Pid, call: Call, t: State)
    requires LeasesOk(st) && t.calls == st.calls[p := call]
    requires p in st.calls ==> call.key == st.calls[p].key && (AskedRedis(st.calls[p]) ==> AskedRedis(call))
    requires forall n :: n in t.redis ==>
      (n in st.redis && t.redis[n] == st.redis[n]) || (n == Name(call) && t.redis[n].token == p && AskedRedis(call))
    requires p !in st.calls ==> t.redis == st.redis
    ensures LeasesOk(t)
  {
  }

  lemma StepKeepsLeases(c: Setup, st: State, e: Event)
    requires LeasesOk(st) && Can(c, st, e)
    ensures LeasesOk(Apply(c, st, e))
  {
    if !e.Tick? && !e.Crash? {
      hide LeasesOk, Name, Free, Release;
      var t := Apply(c, st, e);
      KeepsLeases(st, e.pid, t.calls[e.pid], t);
    }
  }

  lemma StepKeepsStages(c: Setup, st: State, e: Event)
    requires Inv(c, st) && Can(c, st, e)
    ensures forall p :: p in Apply(c, st, e).calls ==> StageFits(c, Apply(c, st, e).calls[p])
  {
  }

  lemma {:induction false} RunKeepsInv(c: Setup, st: State, es: seq<Event>, t: State)
    requires Inv(c, st) && IsRun(c, st, es, t)
    ensures Inv(c, t)
    decreases |es|
  {
    if es != [] {
      StepKeepsTable(c, st, es[0]);
      StepKeepsLeases(c, st, es[0]);
      StepKeepsStages(c, st, es[0]);
      RunKeepsInv(c, Apply(c, st, es[0]), es[1..], t);
    }
  }

  // ---------------------------------------------------------------------- who waits for whom

  /** `a` cannot take the lock it wants because `b` has it. */
  predicate WaitsFor(st: State, a: Pid, b: Pid) {
    && a in st.calls
    && var call := st.calls[a];
    match call.stage
    case WantKey => (call.rid, Name(call)) in st.locks && st.locks[(call.rid, Name(call))] == b
    case WantGroup(n) => (call.rid, n) in st.locks && st.locks[(call.rid, n)] == b
    case WantRedis => !Free(Slot(st, Name(call)), st.now) && st.redis[Name(call)].token == b
    case _ => false
  }

  /** Routing keys that can be locks of the other group come after that group's locks. */
  function Lift(c: Setup, g: Group): nat {
    if exists h: Group :: Reads(c, h, g) then 2 else 0
  }

  function Last(c: Setup): nat {
    if Crossed(c) then 5 else 3
  }

  /** The place of the lock a call waits for; a call that waits for none comes last. */
  function Rank(c: Setup, call: Call): nat {
    match call.stage
    case WantKey => 0
    case WantRedis => 1 + Lift(c, call.key.group)
    case WantGroup(_) => 2 + Lift(c, call.key.group)
    case _ => Last(c)
  }

  /** Every wait leads from an earlier lock to a later one, unless the names are tangled. */
  lemma WaitsClimb(c: Setup, st: State, a: Pid, b: Pid)
    requires !Tangled(c) && Inv(c, st) && WaitsFor(st, a, b)
    ensures b in st.calls && Rank(c, st.calls[a]) < Rank(c, st.calls[b]) <= Last(c)
  {
    LiftBelowLast(c);
    var call, other := st.calls[a], st.calls[b];
    if call.stage.WantRedis? {
      RouteTextSame(call.key, other.key);
    }
    if call.stage.WantGroup? && Name(other) == call.stage.name {
      MeetingReads(c, call, other.key, call.stage.name);
      MeetingLifts(c, call.key.group, other.key.group);
    }
  }

  lemma LiftBelowLast(c: Setup)
    ensures forall g: Group :: Lift(c, g) + 3 <= Last(c)
  {
  }

  lemma MeetingLifts(c: Setup, g: Group, h: Group)
    requires !Tangled(c) && Reads(c, g, h)
    ensures Lift(c, g) == 0 && Lift(c, h) == 2
  {
    forall x: Group
      ensures !Reads(c, x, g)
    {
    }
  }

  predicate Waits(st: State, path: seq<Pid>) {
    forall i :: 0 <= i < |path| - 1 ==> WaitsFor(st, path[i], path[i + 1])
  }

  lemma {:induction false} PathClimbs(c: Setup, st: State, path: seq<Pid>)
    requires !Tangled(c) && Inv(c, st) && |path| >= 2 && Waits(st, path)
    ensures path[0] in st.calls && path[|path| - 1] in st.calls
    ensures Rank(c, st.calls[path[0]]) + |path| - 1 <= Rank(c, st.calls[path[|path| - 1]])
    decreases |path|
  {
    assert WaitsFor(st, path[0], path[1]);
    WaitsClimb(c, st, path[0], path[1]);
    if |path| > 2 {
      var rest := path[1..];
      assert forall i :: 0 <= i < |rest| - 1 ==> WaitsFor(st, path[i + 1], path[i + 1 + 1]) ==> WaitsFor(st, rest[i], rest[i + 1]);
      PathClimbs(c, st, rest);
      assert rest[|rest| - 1] == path[|path| - 1];
    }
  }

  /**
    * Deadlock freedom: unless the names of locks are tangled, in no reachable state do calls wait for one
    * another in a circle; and where no names meet, no chain of waiting calls is longer than the three kinds of locks.
    */
  lemma NoDeadlock(c: Setup, es: seq<Event>, t: State, path: seq<Pid>)
    requires !Tangled(c) && IsRun(c, Start(), es, t) && |path| >= 2 && Waits(t, path)
    ensures path[0] != path[|path| - 1] && |path| <= Last(c) + 1
  {
    RunKeepsInv(c, Start(), es, t);
    PathClimbs(c, t, path);
  }

  /** A call that is not finished and waits for nobody alive. */
  predicate Unblocked(st: State, p: Pid) {
    && p in st.calls && !st.calls[p].stage.Gone?
    && forall b :: b in st.calls && WaitsFor(st, p, b) ==> st.calls[b].stage.Gone?
  }

  /**
    * From every unfinished call the waits lead to one that nobody unfinished keeps waiting;
    * if it waits at all it is for the Redis lock of a finished call, which lapses.
    */
  lemma {:induction false} SomebodyMoves(c: Setup, st: State, p: Pid) returns (path: seq<Pid>)
    requires !Tangled(c) && Inv(c, st) && p in st.calls && !st.calls[p].stage.Gone?
    ensures path != [] && path[0] == p && Waits(st, path) && Unblocked(st, path[|path| - 1])
    decreases Last(c) - Rank(c, st.calls[p])
  {
    if Unblocked(st, p) {
      path := [p];
    } else {
      var b :| b in st.calls && WaitsFor(st, p, b) && !st.calls[b].stage.Gone?;
      WaitsClimb(c, st, p, b);
      var rest := SomebodyMoves(c, st, b);
      path := [p] + rest;
    }
  }

  /** Only a Redis lock can outlive its call. */
  lemma OnlyLeasesOutlive(c: Setup, st: State, p: Pid, b: Pid)
    requires Inv(c, st) && Unblocked(st, p) && WaitsFor(st, p, b)
    ensures st.calls[p].stage.WantRedis? && b in st.calls && st.calls[b].stage.Gone?
  {
  }

  /** The step of a call that gets it on without being cancelled, timed out or degraded. */
  function Onward(call: Call, p: Pid): Event {
    match call.stage
    case WantKey => TakeKey(p)
    case WantRedis => TakeRedis(p)
    case Inside => Leave(p)
    case WantGroup(_) => TakeGroup(p)
    case InGroup(_) => DropGroup(p)
    case UnlockRedis => FreeRedis(p, true)
    case _ => FreeKey(p)
  }

  /** How long the Redis lock a call wants stays taken. */
  function Remaining(st: State, p: Pid): nat
    requires p in st.calls
  {
    var slot := Slot(st, Name(st.calls[p]));
    if st.calls[p].stage.WantRedis? && !Free(slot, st.now) then slot.value.expires - st.now else 0
  }

  /** Nobody waits for a group lock or a key lock of a call that is not there. */
  lemma TakenByACall(c: Setup, st: State, p: Pid)
    requires Inv(c, st) && Unblocked(st, p)
    ensures st.calls[p].stage.WantKey? ==> (st.calls[p].rid, Name(st.calls[p])) !in st.locks
    ensures st.calls[p].stage.WantGroup? ==> (st.calls[p].rid, st.calls[p].stage.name) !in st.locks
  {
    var call := st.calls[p];
    if call.stage.WantKey? && (call.rid, Name(call)) in st.locks {
      OnlyLeasesOutlive(c, st, p, st.locks[(call.rid, Name(call))]);
    }
    if call.stage.WantGroup? && (call.rid, call.stage.name) in st.locks {
      OnlyLeasesOutlive(c, st, p, st.locks[(call.rid, call.stage.name)]);
    }
  }

  /**
    * A call that no unfinished call keeps waiting can go on: at once, or, if the Redis lock it wants
    * was left behind, as soon as that has expired.
    */
  lemma UnblockedMoves(c: Setup, st: State, p: Pid)
    requires Inv(c, st) && Unblocked(st, p)
    ensures var later := Apply(c, st, Tick(Remaining(st, p)));
            p in later.calls && later.calls[p] == st.calls[p] && Can(c, later, Onward(st.calls[p], p))
    ensures Remaining(st, p) > 0 ==> exists b :: WaitsFor(st, p, b) && b in st.calls && st.calls[b].stage.Gone?
  {
    TakenByACall(c, st, p);
    if Remaining(st, p) > 0 {
      var b := st.redis[Name(st.calls[p])].token;
      OnlyLeasesOutlive(c, st, p, b);
    }
  }

  // ------------------------------------------------------------------- everybody can finish

  function Ahead(stage: Stage): nat {
    match stage
    case WantKey => 7
    case WantRedis => 6
    case WantGroup(_) => 5
    case InGroup(_) => 4
    case Inside => 3
    case UnlockRedis => 2
    case UnlockKey => 1
    case Gone => 0
  }

  /** The next step of a call that waits for no local lock; a Redis lock it cannot have it does without. */
  function Forth(st: State, p: Pid): Event
    requires p in st.calls
  {
    var call := st.calls[p];
    if call.stage.WantRedis? && !Free(Slot(st, Name(call)), st.now) then Degrade(p, false) else Onward(call, p)
  }

  predicate LocksFree(st: State, call: Call) {
    && (call.stage.WantKey? ==> (call.rid, Name(call)) !in st.locks)
    && (call.stage.WantGroup? ==> (call.rid, call.stage.name) !in st.locks)
  }

  lemma ForthShortens(c: Setup, st: State, p: Pid)
    requires p in st.calls && !st.calls[p].stage.Gone? && LocksFree(st, st.calls[p])
    ensures Can(c, st, Forth(st, p))
    ensures var t := Apply(c, st, Forth(st, p));
            p in t.calls && t.calls == st.calls[p := t.calls[p]]
            && Ahead(t.calls[p].stage) < Ahead(st.calls[p].stage) && LocksFree(t, t.calls[p])
  {
  }

  /** A call that waits for no local lock can run to its end by its own steps alone, and then holds nothing. */
  lemma {:induction false} FinishesAlone(c: Setup, st: State, p: Pid) returns (es: seq<Event>, t: State)
    requires Inv(c, st) && p in st.calls && LocksFree(st, st.calls[p])
    ensures IsRun(c, st, es, t) && Inv(c, t)
    ensures p in t.calls && t.calls == st.calls[p := t.calls[p]] && t.calls[p].stage.Gone?
    ensures forall rn :: rn in t.locks ==> t.locks[rn] != p
    decreases Ahead(st.calls[p].stage)
  {
    if st.calls[p].stage.Gone? {
      es, t := [], st;
      assert st.calls[p := st.calls[p]] == st.calls;
    } else {
      hide Apply, Inv, LocksFree, Forth, Can;
      var e := Forth(st, p);
      ForthShortens(c, st, p);
      var next := Apply(c, st, e);
      assert IsRun(c, next, [], next);
      OneStep(c, st, e);
      RunKeepsInv(c, st, [e], next);
      es, t := FinishesAlone(c, next, p);
      assert ([e] + es)[1..] == es;
      es := [e] + es;
    }
  }

  lemma OneStep(c: Setup, st: State, e: Event)
    requires Can(c, st, e)
    ensures IsRun(c, st, [e], Apply(c, st, e))
  {
    assert IsRun(c, Apply(c, st, e), [], Apply(c, st, e));
    assert [e][1..] == [];
  }

  function Unfinished(st: State): set<Pid> {
    set p | p in st.calls && !st.calls[p].stage.Gone?
  }

  lemma {:induction false} RunsJoin(c: Setup, st: State, es: seq<Event>, mid: State, fs: seq<Event>, t: State)
    requires IsRun(c, st, es, mid) && IsRun(c, mid, fs, t)
    ensures IsRun(c, st, es + fs, t)
    decreases |es|
  {
    hide Apply, Can;
    if es == [] {
      assert es + fs == fs;
    } else {
      RunsJoin(c, Apply(c, st, es[0]), es[1..], mid, fs, t);
      assert (es + fs)[1..] == es[1..] + fs;
    }
  }

  lemma {:induction false} EverybodyFinishes(c: Setup, st: State) returns (es: seq<Event>, t: State)
    requires !Tangled(c) && Inv(c, st)
    ensures IsRun(c, st, es, t) && Inv(c, t) && t.calls.Keys == st.calls.Keys && Unfinished(t) == {} && t.locks == map[]
    decreases |Unfinished(st)|
  {
    if Unfinished(st) == {} {
      es, t := [], st;
      NobodyHolds(st);
    } else {
      hide Inv, IsRun, Tangled, Waits, Unblocked, LocksFree;
      var p :| p in Unfinished(st);
      var path := SomebodyMoves(c, st, p);
      var q := path[|path| - 1];
      UnblockedIsFree(c, st, q);
      var first, mid := FinishesAlone(c, st, q);
      assert Unfinished(mid) == Unfinished(st) - {q};
      var rest;
      rest, t := EverybodyFinishes(c, mid);
      RunsJoin(c, st, first, mid, rest, t);
      es := first + rest;
    }
  }

  lemma NobodyHolds(st: State)
    requires TableOk(st) && Unfinished(st) == {}
    ensures st.locks == map[]
  {
    if st.locks != map[] {
      var rn :| rn in st.locks;
      HolderIsUnfinished(st, rn);
    }
  }

  lemma HolderIsUnfinished(st: State, rn: (Rid, string))
    requires TableOk(st) && rn in st.locks
    ensures st.locks[rn] in Unfinished(st)
  {
    assert Holds(st.calls[st.locks[rn]], rn.1);
  }

  lemma UnblockedIsFree(c: Setup, st: State, p: Pid)
    requires Inv(c, st) && Unblocked(st, p)
    ensures p in st.calls && p in Unfinished(st) && LocksFree(st, st.calls[p])
  {
    TakenByACall(c, st, p);
  }

  /**
    * Nobody is ever stuck: unless the names of locks are tangled, every reachable state leads on to one in
    * which every call is finished and no local lock is taken.
    */
  lemma NobodyIsStuck(c: Setup, es: seq<Event>, st: State) returns (more: seq<Event>, t: State)
    requires !Tangled(c) && IsRun(c, Start(), es, st)
    ensures IsRun(c, st, more, t) && t.locks == map[] && t.calls.Keys == st.calls.Keys
    ensures forall p :: p in t.calls ==> t.calls[p].stage.Gone?
  {
    RunKeepsInv(c, Start(), es, st);
    more, t := EverybodyFinishes(c, st);
    assert forall p :: p in t.calls && !t.calls[p].stage.Gone? ==> p in Unfinished(t);
  }

  /** Two calls of a replica are never past the same local lock together. */
  lemma OneHolder(c: Setup, es: seq<Event>, t: State, p: Pid, q: Pid, n: string)
    requires IsRun(c, Start(), es, t)
    requires p in t.calls && q in t.calls && t.calls[p].rid == t.calls[q].rid
    requires Holds(t.calls[p], n) && Holds(t.calls[q], n)
    ensures p == q
  {
    RunKeepsInv(c, Start(), es, t);
  }

  // --------------------------------------------------------------- what a colon would do

  /** Without a colon in the names of the groups, no names meet. */
  lemma PlainNamesApart(c: Setup)
    requires Plain(c.diagnose) && Plain(c.action)
    ensures !Crossed(c) && !Tangled(c)
  {
    forall g: Group, h: Group
      ensures !Reads(c, g, h)
    {
      var n, end := GroupName(c, g), ":" + GroupText(h);
      if |end| <= |n| {
        assert n[|n| - |end|..][0] == n[|n| - |end|] != end[0];
      }
    }
  }

  /** A routing key of the group `h` that is the name of the volume lock of the group `g`. */
  function Clash(c: Setup, g: Group, h: Group): Key
    requires Reads(c, g, h)
  {
    Namesake("volume", GroupName(c, g), h)
  }

  lemma ClashReads(c: Setup, g: Group, h: Group)
    requires Reads(c, g, h)
    ensures RouteText(Clash(c, g, h)) == GroupLock(c, g, false)
  {
    NamesakeReads("volume", GroupName(c, g), h);
  }

  /** A call in its creation that wants the volume lock of its group. */
  function Asking(c: Setup, k: Key): Call {
    Call(0, k, c.distributed, WantGroup(GroupLock(c, k.group, false)))
  }

  /** A call takes its locks and asks for the volume lock. */
  lemma AskRuns(c: Setup, es: seq<Event>, st: State, p: Pid, k: Key) returns (fs: seq<Event>, t: State)
    requires IsRun(c, Start(), es, st) && p !in st.calls && (0, RouteText(k)) !in st.locks && RouteText(k) !in st.redis
    ensures IsRun(c, Start(), fs, t) && t.calls == st.calls[p := Asking(c, k)] && t.locks == st.locks[(0, RouteText(k)) := p]
    ensures forall n :: n in t.redis ==> n in st.redis || n == RouteText(k)
  {
    hide IsRun;
    fs, t := Grow(c, es, st, Begin(p, Call(0, k, false, WantKey)));
    fs, t := Grow(c, fs, t, TakeKey(p));
    if c.distributed {
      fs, t := Grow(c, fs, t, TakeRedis(p));
    }
    fs, t := Grow(c, fs, t, Ask(p, false));
  }

  lemma Grow(c: Setup, es: seq<Event>, st: State, e: Event) returns (fs: seq<Event>, t: State)
    requires IsRun(c, Start(), es, st) && Can(c, st, e)
    ensures IsRun(c, Start(), fs, t) && t == Apply(c, st, e)
  {
    fs, t := es + [e], Apply(c, st, e);
    RunGrows(c, Start(), es, st, e);
  }

  lemma {:induction false} RunGrows(c: Setup, st: State, es: seq<Event>, t: State, e: Event)
    requires IsRun(c, st, es, t) && Can(c, t, e)
    ensures IsRun(c, st, es + [e], Apply(c, t, e))
    decreases |es|
  {
    hide Apply, Can;
    if es == [] {
      assert es + [e] == [e] && [e][1..] == [];
    } else {
      RunGrows(c, Apply(c, st, es[0]), es[1..], t, e);
      assert (es + [e])[1..] == es[1..] + [e];
    }
  }

  lemma Nowhere(c: Setup)
    ensures IsRun(c, Start(), [], Start())
  {
  }

  /**
    * The group names matter: with a name that ends in a colon and its own group, a routing key is the
    * name of its volume lock, and the call waits for itself.
    */
  lemma ColonInAGroupName(c: Setup, g: Group) returns (es: seq<Event>, t: State)
    requires Reads(c, g, g)
    ensures IsRun(c, Start(), es, t) && WaitsFor(t, 0, 0)
  {
    hide IsRun;
    Nowhere(c);
    ClashReads(c, g, g);
    es, t := AskRuns(c, [], Start(), 0, Clash(c, g, g));
  }

  /** With each name ending in the other group, two calls wait for one another. */
  lemma ColonsInBothNames(c: Setup, g: Group, h: Group) returns (es: seq<Event>, t: State)
    requires Reads(c, g, h) && Reads(c, h, g) && g != h
    ensures IsRun(c, Start(), es, t) && WaitsFor(t, 0, 1) && WaitsFor(t, 1, 0)
  {
    hide IsRun;
    Nowhere(c);
    var k, l := Clash(c, h, g), Clash(c, g, h);
    ClashReads(c, g, h);
    ClashReads(c, h, g);
    RouteTextSame(k, l);
    es, t := AskRuns(c, [], Start(), 0, k);
    es, t := AskRuns(c, es, t, 1, l);
  }

  /** Calls that wait for one another in a circle. */
  ghost predicate Circle(st: State, path: seq<Pid>) {
    |path| >= 2 && path[0] == path[|path| - 1] && Waits(st, path)
  }

  ghost predicate Deadlocks(c: Setup) {
    exists es, t, path :: IsRun(c, Start(), es, t) && Circle(t, path)
  }

  /** Exactly when calls can deadlock: the name of a group ends in its own group, or each name in the other. */
  lemma DeadlocksIffTangled(c: Setup)
    ensures Deadlocks(c) <==> Tangled(c)
  {
    if Tangled(c) {
      var g: Group, h: Group :| Reads(c, g, h) && Reads(c, h, g);
      var es, t;
      if g == h {
        es, t := ColonInAGroupName(c, g);
        assert Circle(t, [0, 0]);
      } else {
        es, t := ColonsInBothNames(c, g, h);
        assert Circle(t, [0, 1, 0]);
      }
    } else if Deadlocks(c) {
      var es, t, path :| IsRun(c, Start(), es, t) && Circle(t, path);
      NoDeadlock(c, es, t, path);
    }
  }
}
