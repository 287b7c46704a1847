/**
  * The sandbox lifecycle protocol as a transition system.
  *
  * Any number of replicas run `get_or_create`, `end_session` and `reap_orphans`
  * over one Redis and one sandbox platform. A process is the control state of one
  * such call; every `await` of the source is a separate step, and what Redis or
  * the platform answers is an observation the step is given. `Advance` is the
  * program text: it maps a control point and an observation to the next control
  * point and to one effect on the shared state. `Enabled` says which observations
  * the shared state allows; everything else (loss, timeouts, expiry, crashes)
  * is left to the environment.
  */
module Protocol {
  import opened Options
  import opened TokenLease
  import opened Routing

  type Sid = nat
  type Pid = nat
  type Rid = nat

  datatype Config = Config(sessionTtl: nat, lockTtl: nat, distributed: bool)

  datatype Entry = Entry(sid: Sid, expires: nat)

  datatype Pc =
    // get_or_create and the exec that follows it
    | WaitLocal | WaitRedis | Lookup | Refresh | Ensure | Reset | Create
    | PutForward | PutIndex | CheckBoot | Boot | Mark | Rollback
    | UnlockRedis | UnlockLocal | Serve
    // end_session, for one group
    | EPeek | EDelete | EUnbind | EDrop
    // reap_orphans, for one group
    | RList | RNext | RPeek | RDelete | RDrop
    | Gone

  /**
    * One process. `sid` is the sandbox it is dealing with, `since` the time it took
    * its Redis lock, `ok` whether `get_or_create` is returning a client, `todo` the
    * sandboxes a reaper has yet to visit.
    */
  datatype Proc = Proc(rid: Rid, key: Key, pc: Pc, sid: Sid, got: bool, since: nat, ok: bool, todo: seq<Sid>)

  /**
    * What a step is told. `Lost` is a Redis error, `Error` an error of the platform and
    * `Cancelled` the cancellation of the coroutine; in each case the request that was waited
    * for may or may not have been applied.
    */
  datatype Obs =
    | Done
    | Lost(applied: bool)
    | Seen(binding: Option<Sid>)
    | Meta(meta: Option<Key>)
    | Flagged(flag: bool)
    | Fresh(id: Sid)
    | Listed(ids: seq<Sid>)
    | NotFound
    | Error(applied: bool)
    | Cancelled(applied: bool)

  datatype Fx =
    | Nothing
    | BindTo(key: Key, sid: Sid, landed: bool)
    | Unbind(key: Key)
    | PutMeta(sid: Sid, key: Key, landed: bool)
    | DropMeta(sid: Sid)
    | Flag(sid: Sid)
    | Provision(sid: Sid, key: Key)
    | Booted(sid: Sid)
    | Delete(sid: Sid)
    | TakeLocal(key: Key)
    | FreeLocal(key: Key)
    | TakeRedis(key: Key)
    | FreeRedis(key: Key)
    | Serving(key: Key, sid: Sid)

  datatype Service = Service(key: Key, sid: Sid)

  /**
    * The shared state. `forward` keeps lapsed entries, which `Bound` hides. The last
    * group is history: who each sandbox was created for, which bootstraps succeeded,
    * whose creator is past the routing-key write and whose past the index write, when
    * a routing key was last written for a sandbox, which sandboxes had their routing
    * key deleted, which were finished by the platform after their creator gave up,
    * and which commands ran where.
    */
  datatype State = State(
    now: nat,
    forward: map<Key, Entry>,
    index: map<Sid, Key>,
    flags: set<Sid>,
    local: map<(Rid, Key), Pid>,
    redis: map<Key, Lease>,
    live: set<Sid>,
    procs: map<Pid, Proc>,
    owner: map<Sid, Key>,
    booted: set<Sid>,
    issued: set<Sid>,
    announced: set<Sid>,
    touched: map<Sid, nat>,
    dropped: set<Sid>,
    strays: set<Sid>,
    served: set<Service>)

  function Init(): State {
    State(0, map[], map[], {}, map[], map[], {}, map[], map[], {}, {}, {}, map[], {}, {}, {})
  }

  /** What a Redis `GET` of the routing key answers now. */
  function Bound(st: State, k: Key): Option<Sid> {
    if k in st.forward && st.now < st.forward[k].expires then Some(st.forward[k].sid) else None
  }

  function Slot(st: State, k: Key): Option<Lease> {
    if k in st.redis then Some(st.redis[k]) else None
  }

  // ---------------------------------------------------------------- program text

  datatype Move = Move(next: Proc, fx: Fx)

  function To(p: Proc, pc: Pc): Move {
    Move(p.(pc := pc), Nothing)
  }

  /** Leaving the critical section: the Redis lock goes first, then the local one. */
  function Leave(p: Proc, ok: bool): Proc {
    p.(pc := if p.got then UnlockRedis else UnlockLocal, ok := ok)
  }

  predicate Landed(o: Obs) {
    o == Done || ((o.Lost? || o.Error? || o.Cancelled?) && o.applied)
  }

  function When(landed: bool, f: Fx): Fx {
    if landed then f else Nothing
  }

  /** The call has taken its locks, or what it could get of them, and not yet given them back. */
  predicate Critical(pc: Pc) {
    || pc.Lookup? || pc.Refresh? || pc.Ensure? || pc.Reset? || pc.Create?
    || pc.PutForward? || InSetup(pc) || pc.UnlockRedis?
  }

  /** The creator has written the routing key and is not finished. */
  predicate InSetup(pc: Pc) {
    pc.PutIndex? || pc.CheckBoot? || pc.Boot? || pc.Mark? || pc.Rollback?
  }

  predicate EndPc(pc: Pc) {
    pc.EPeek? || pc.EDelete? || pc.EUnbind? || pc.EDrop?
  }

  predicate ReapPc(pc: Pc) {
    pc.RList? || pc.RNext? || pc.RPeek? || pc.RDelete? || pc.RDrop?
  }

  predicate CallPc(pc: Pc) {
    !EndPc(pc) && !ReapPc(pc)
  }

  function Advance(c: Config, now: nat, p: Proc, o: Obs): Move {
    if o.Cancelled? then Move(Unwound(p), When(o.applied, Sent(p)))
    else if EndPc(p.pc) then AdvanceEnd(p, o)
    else if ReapPc(p.pc) then AdvanceReap(p, o)
    else if p.pc.PutForward? || InSetup(p.pc) then AdvanceSetup(p, o)
    else AdvanceRoute(c, now, p, o)
  }

  /**
    * Where a cancelled coroutine continues: the cancellation passes every `except Exception`
    * handler by, but neither the release of the locks nor the `finally` of `end_session`.
    */
  function Unwound(p: Proc): Proc {
    if p.pc.WaitRedis? || p.pc.UnlockRedis? then p.(pc := UnlockLocal, ok := false)
    else if Critical(p.pc) then Leave(p, false)
    else if p.pc.EDelete? then p.(pc := EUnbind)
    else p.(pc := Gone)
  }

  /**
    * What the request a process is waiting for does once it is applied. A creation that
    * outlives its caller is a stray, and a bootstrap counts only when its caller hears of it.
    */
  function Sent(p: Proc): Fx {
    match p.pc
    case WaitRedis => TakeRedis(p.key)
    case Refresh | PutForward => BindTo(p.key, p.sid, true)
    case Reset | Rollback | EUnbind => Unbind(p.key)
    case PutIndex => PutMeta(p.sid, p.key, true)
    case Mark => Flag(p.sid)
    case UnlockRedis => FreeRedis(p.key)
    case Serve => Serving(p.key, p.sid)
    case EDelete | RDelete => Delete(p.sid)
    case EDrop | RDrop => DropMeta(p.sid)
    case _ => Nothing
  }

  /** `get_or_create` up to the creation, and its exit. */
  function AdvanceRoute(c: Config, now: nat, p: Proc, o: Obs): Move {
    match p.pc
    case WaitLocal => Move(p.(pc := if c.distributed then WaitRedis else Lookup), TakeLocal(p.key))
    case WaitRedis =>
      if o.Done? then Move(p.(pc := Lookup, got := true, since := now), TakeRedis(p.key))
      else Move(p.(pc := Lookup), When(Landed(o), TakeRedis(p.key)))
    case Lookup =>
      if o.Seen? && o.binding.Some? then Move(p.(pc := Refresh, sid := o.binding.value), Nothing)
      else To(p, Create)
    case Refresh => Move(p.(pc := if o.Done? then Ensure else Create), BindTo(p.key, p.sid, Landed(o)))
    case Ensure =>
      if o.Done? then Move(Leave(p, true), Nothing)
      else if o.NotFound? then To(p, Reset)
      else Move(Leave(p, false), Nothing)
    case Reset => Move(p.(pc := Create), When(Landed(o), Unbind(p.key)))
    case Create =>
      if o.Fresh? then Move(p.(pc := PutForward, sid := o.id), Provision(o.id, p.key))
      else Move(Leave(p, false), Nothing)
    case UnlockRedis => Move(p.(pc := UnlockLocal), When(Landed(o), FreeRedis(p.key)))
    case UnlockLocal => Move(p.(pc := if p.ok then Serve else Gone), FreeLocal(p.key))
    case Serve => Move(p.(pc := Gone), When(Landed(o), Serving(p.key, p.sid)))
    case _ => To(p, Gone)
  }

  /** `get_or_create` from the new sandbox to its return or its rollback. */
  function AdvanceSetup(p: Proc, o: Obs): Move {
    match p.pc
    case PutForward => Move(p.(pc := PutIndex), BindTo(p.key, p.sid, Landed(o)))
    case PutIndex => Move(p.(pc := CheckBoot), PutMeta(p.sid, p.key, Landed(o)))
    case CheckBoot =>
      if o.Flagged? && o.flag then Move(Leave(p, true), Nothing) else To(p, Boot)
    case Boot =>
      if o.Done? then Move(p.(pc := Mark), Booted(p.sid)) else To(p, Rollback)
    case Mark => Move(Leave(p, true), When(Landed(o), Flag(p.sid)))
    case Rollback => Move(Leave(p, false), When(Landed(o), Unbind(p.key)))
    case _ => To(p, Gone)
  }

  /** `end_session` for one of the two groups. */
  function AdvanceEnd(p: Proc, o: Obs): Move {
    match p.pc
    case EPeek =>
      if o.Seen? && o.binding.Some? then Move(p.(pc := EDelete, sid := o.binding.value), Nothing) else To(p, Gone)
    case EDelete => Move(p.(pc := EUnbind), When(Landed(o), Delete(p.sid)))
    case EUnbind => Move(p.(pc := if o.Done? then EDrop else Gone), When(Landed(o), Unbind(p.key)))
    case EDrop => Move(p.(pc := Gone), When(Landed(o), DropMeta(p.sid)))
    case _ => To(p, Gone)
  }

  /** `reap_orphans` for one of the two groups; any error abandons the group. */
  function AdvanceReap(p: Proc, o: Obs): Move {
    match p.pc
    case RList => if o.Listed? then Move(p.(pc := RNext, todo := o.ids), Nothing) else To(p, Gone)
    case RNext =>
      if p.todo == [] || !o.Meta? then To(p, Gone)
      else if o.meta.None? then Move(p.(todo := p.todo[1..]), Nothing)
      else Move(p.(pc := RPeek, key := o.meta.value, sid := p.todo[0]), Nothing)
    case RPeek =>
      if !o.Seen? then To(p, Gone)
      else if o.binding == Some(p.sid) then Move(p.(pc := RNext, todo := Rest(p.todo)), Nothing)
      else To(p, RDelete)
    case RDelete =>
      Move(p.(pc := if o.Done? || o.NotFound? then RDrop else Gone), When(Landed(o), Delete(p.sid)))
    case RDrop =>
      Move(p.(pc := if o.Done? then RNext else Gone, todo := Rest(p.todo)), When(Landed(o), DropMeta(p.sid)))
    case _ => To(p, Gone)
  }

  function Rest(todo: seq<Sid>): seq<Sid> {
    if todo == [] then [] else todo[1..]
  }

  // ------------------------------------------------------------ what may be observed

  predicate Enabled(st: State, p: Proc, o: Obs) {
    if o.Cancelled? then
      !(p.pc.UnlockLocal? || p.pc.Gone?) && (p.pc.WaitRedis? && o.applied ==> Free(Slot(st, p.key), st.now))
    else match p.pc
      case WaitLocal => o.Done? && (p.rid, p.key) !in st.local
      case WaitRedis => (o.Done? || o.Lost?) && (Landed(o) ==> Free(Slot(st, p.key), st.now))
      case Lookup => o.Lost? || o == Seen(Bound(st, p.key))
      case Ensure => o.Error? || (o.Done? && p.sid in st.live) || (o.NotFound? && p.sid !in st.live)
      case Create => o.Error? || (o.Fresh? && o.id !in st.owner)
      case CheckBoot => o.Lost? || (o.Flagged? && (o.flag ==> p.sid in st.flags))
      case Boot => o.Error? || (o.Done? && p.sid in st.live)
      case UnlockLocal => o.Done?
      case Serve => o.Done? || o.Error?
      case EPeek => o.Lost? || o == Seen(Bound(st, p.key))
      case EDelete => o.Error? || (o.Done? && p.sid in st.live) || (o.NotFound? && p.sid !in st.live)
      case RList => o.Error? || (o.Listed? && Listing(st, p.key.group, o.ids))
      case RNext =>
        if p.todo == [] then o.Done?
        else o.Lost? || o == Meta(if p.todo[0] in st.index then Some(st.index[p.todo[0]]) else None)
      case RPeek => o.Lost? || o == Seen(Bound(st, p.key))
      case RDelete => o.Error? || (o.Done? && p.sid in st.live) || (o.NotFound? && p.sid !in st.live)
      case Gone => false
      case _ => o.Done? || o.Lost?
  }

  /** The platform lists every live sandbox of the group, and only sandboxes of the group. */
  predicate Listing(st: State, g: Group, ids: seq<Sid>) {
    && (forall s :: s in st.live && s in st.owner && st.owner[s].group == g ==> s in ids)
    && (forall s :: s in ids ==> s in st.owner && st.owner[s].group == g)
  }

  // ------------------------------------------------------------------------- effects

  function Commit(c: Config, st: State, pid: Pid, rid: Rid, f: Fx): State {
    match f
    case Nothing => st
    case BindTo(k, s, landed) =>
      st.(forward := if landed then st.forward[k := Entry(s, st.now + c.sessionTtl)] else st.forward,
          touched := if landed then st.touched[s := st.now] else st.touched,
          issued := st.issued + {s})
    case Unbind(k) =>
      st.(forward := st.forward - {k}, dropped := st.dropped + if k in st.forward then {st.forward[k].sid} else {})
    case PutMeta(s, k, landed) =>
      st.(index := if landed then st.index[s := k] else st.index, announced := st.announced + {s})
    case DropMeta(s) => st.(index := st.index - {s})
    case Flag(s) => st.(flags := st.flags + {s})
    case Provision(s, k) => st.(live := st.live + {s}, owner := st.owner[s := k])
    case Booted(s) => st.(booted := st.booted + {s})
    case Delete(s) => st.(live := st.live - {s})
    case TakeLocal(k) => st.(local := st.local[(rid, k) := pid])
    case FreeLocal(k) => st.(local := st.local - {(rid, k)})
    case TakeRedis(k) => st.(redis := st.redis[k := Take(pid, st.now, c.lockTtl).value])
    case FreeRedis(k) =>
      if Release(Slot(st, k), st.now, pid).None? then st.(redis := st.redis - {k}) else st
    case Serving(k, s) => st.(served := st.served + {Service(k, s)})
  }

  // -------------------------------------------------------------------------- events

  /** Besides the steps of processes: time, the platform, Redis losing data, and replicas dying. */
  datatype Event =
    | Do(pid: Pid, obs: Obs)
    | Spawn(pid: Pid, proc: Proc)
    | Tick(seconds: nat)
    | Vanish(sid: Sid)
    | Stray(sid: Sid, key: Key)
    | Forget(keys: set<Key>, sids: set<Sid>, locks: set<Key>)
    | Crash(rid: Rid)

  predicate Starting(p: Proc) {
    (p.pc.WaitLocal? || p.pc.EPeek? || p.pc.RList?) && !p.got && !p.ok && p.todo == []
  }

  predicate Can(st: State, e: Event) {
    match e
    case Do(pid, o) => pid in st.procs && Enabled(st, st.procs[pid], o)
    case Spawn(pid, p) => pid !in st.procs && Starting(p)
    case Stray(s, _) => s !in st.owner
    case _ => true
  }

  /** A process makes a move: its effect is committed and its control state replaced. */
  function After(c: Config, st: State, pid: Pid, m: Move): State {
    Commit(c, st, pid, m.next.rid, m.fx).(procs := st.procs[pid := m.next])
  }

  function Kill(p: Proc, r: Rid): Proc {
    if p.rid == r then p.(pc := Gone, ok := false) else p
  }

  function Apply(c: Config, st: State, e: Event): State
    requires Can(st, e)
  {
    match e
    case Do(pid, o) =>
      After(c, st, pid, Advance(c, st.now, st.procs[pid], o))
    case Spawn(pid, p) => st.(procs := st.procs[pid := p])
    case Tick(d) => st.(now := st.now + d)
    case Vanish(s) => st.(live := st.live - {s})
    case Stray(s, k) => st.(live := st.live + {s}, owner := st.owner[s := k], strays := st.strays + {s})
    case Forget(keys, sids, locks) =>
      st.(forward := st.forward - keys, index := st.index - sids, flags := st.flags - sids, redis := st.redis - locks)
    case Crash(r) =>
      st.(procs := map pid | pid in st.procs :: Kill(st.procs[pid], r),
          local := map rk | rk in st.local && rk.0 != r :: st.local[rk])
  }

  // ---------------------------------------------------------------------------- runs

  /** Conditions on the environment or on timing that a property may rest on. */
  datatype Assumption =
    | KeyKept(key: Key)         // Redis does not lose the routing key
    | BindingLands(key: Key)    // the first binding of a sandbox is applied, if its reply may be lost
    | IndexLands(key: Key)      // so is the index entry of a sandbox of the key, and Redis does not lose it
    | ReadsAnswer(key: Key)     // no call on the key creates because it failed to read that a live sandbox is bound
    | AtomicSlide(key: Key)     // a sliding read refreshes the key only while it holds what was read
    | Exclusive(key: Key)       // at most one call is inside the critical section of the key
    | SetupKept(key: Key)       // nobody leaves the key bound to a sandbox and its bootstrap undone
    | NoEnd(key: Key)           // nobody ends the session of the key
    | CleanEnd(key: Key)        // an end of the key's session goes on to clean up only when the sandbox is gone
    | SetupFits(key: Key)       // a sandbox is set up within the session window
    | LocksTaken(key: Key)      // the Redis lock of the key is really acquired
    | Timely(key: Key)          // a critical section of the key ends before its Redis lock expires
    | OneReplica(rid: Rid, key: Key) // calls on the key are made on one replica
    | Quiet(key: Key)           // no call on the key is started
    | NoFault(key: Key)         // calls on the key meet no error, missing sandbox, cancellation or crash
    | PlatformAnswers(key: Key) // calls on the key meet no platform error, cancellation or crash; Redis may fail
    | LockReturned(key: Key)    // no Redis lock of the key is granted unheard, and every release of one is applied
    | InWindow(key: Key)        // a bound routing key does not lapse
    | CleanPass(pid: Pid)       // the process is a reaper that meets no error

  /** The call `pid` is inside the critical section of `k`. */
  predicate Inside(st: State, k: Key, pid: Pid) {
    pid in st.procs && st.procs[pid].key == k && Critical(st.procs[pid].pc)
  }

  ghost predicate Alone(st: State, k: Key) {
    forall a, b :: Inside(st, k, a) && Inside(st, k, b) ==> a == b
  }

  /** A request of a process about the key is lost and was not applied. */
  predicate Unapplied(st: State, e: Event, k: Key) {
    e.Do? && e.pid in st.procs && st.procs[e.pid].key == k && e.obs == Lost(false)
  }

  /** A call that takes the key for unbound now creates a second sandbox beside a live one. */
  predicate LiveBound(st: State, k: Key) {
    Bound(st, k).Some? && Bound(st, k).value in st.live
  }

  /** The call is setting up the sandbox the key leads to. */
  predicate Setter(st: State, k: Key, pid: Pid) {
    && pid in st.procs && st.procs[pid].key == k && InSetup(st.procs[pid].pc)
    && Bound(st, k) == Some(st.procs[pid].sid)
  }

  /** A setter that goes away now leaves a sandbox behind that is not bootstrapped. */
  predicate Unfinished(st: State, k: Key, pid: Pid) {
    Setter(st, k, pid) && st.procs[pid].sid !in st.booted
  }

  /**
    * The steps that leave the key bound to a sandbox whose bootstrap nobody will finish: a
    * cancelled setter, unless its rollback goes through all the same; a creator cancelled
    * while its binding is applied; a rollback that is lost; the death of a setter.
    */
  ghost predicate Abandons(st: State, e: Event, k: Key) {
    match e
    case Do(pid, o) =>
      && pid in st.procs
      && var p := st.procs[pid];
      if o.Cancelled? then
        || (Unfinished(st, k, pid) && !(p.pc.Rollback? && o.applied))
        || (p.key == k && p.pc.PutForward? && o.applied && p.sid !in st.booted)
      else Unfinished(st, k, pid) && p.pc.Rollback? && !Landed(o)
    case Crash(r) => exists pid :: Unfinished(st, k, pid) && st.procs[pid].rid == r
    case _ => false
  }

  /** A call on the key goes on to create because its read failed, not because the key is unbound. */
  predicate MissesBlindly(st: State, e: Event, k: Key) {
    && e.Do? && e.pid in st.procs && st.procs[e.pid].key == k && e.obs.Lost?
    && (st.procs[e.pid].pc.Lookup? || st.procs[e.pid].pc.Refresh?)
  }

  ghost predicate Respects(c: Config, a: Assumption, st: State, e: Event)
    requires Can(st, e)
  {
    match a
    case KeyKept(k) => e.Forget? ==> k !in e.keys
    case BindingLands(k) => Unapplied(st, e, k) ==> !st.procs[e.pid].pc.PutForward?
    case IndexLands(k) =>
      && (e.Forget? ==> forall s :: s in e.sids && s in st.owner ==> st.owner[s] != k)
      && (Unapplied(st, e, k) ==> !st.procs[e.pid].pc.PutIndex?)
    case ReadsAnswer(k) => MissesBlindly(st, e, k) ==> !LiveBound(Apply(c, st, e), k)
    case AtomicSlide(k) =>
      e.Do? && st.procs[e.pid].key == k && st.procs[e.pid].pc.Refresh? && Landed(e.obs) ==> Bound(st, k) == Some(st.procs[e.pid].sid)
    case Exclusive(k) => Alone(st, k) && Alone(Apply(c, st, e), k)
    case SetupKept(k) => !Abandons(st, e, k)
    case NoEnd(k) => e.Spawn? && e.proc.key == k ==> !EndPc(e.proc.pc)
    case CleanEnd(k) =>
      e.Do? && st.procs[e.pid].key == k && st.procs[e.pid].pc.EDelete? ==> st.procs[e.pid].sid !in Apply(c, st, e).live
    case SetupFits(k) => AllFit(c, Apply(c, st, e), k)
    case LocksTaken(k) => e.Do? && st.procs[e.pid].key == k && st.procs[e.pid].pc.WaitRedis? ==> !e.obs.Lost?
    case Timely(k) => AllInTime(c, Apply(c, st, e), k) && (e.Forget? ==> k !in e.locks)
    case OneReplica(r, k) => e.Spawn? && Calling(e.proc, k) ==> e.proc.rid == r
    case Quiet(k) => e.Spawn? && e.proc.key == k ==> !CallPc(e.proc.pc)
    case NoFault(k) =>
      && (e.Forget? ==> k !in e.keys)
      && (e.Do? ==> Fair(k, st.procs[e.pid], e.obs))
      && (e.Crash? ==> forall pid :: pid in st.procs && Calling(st.procs[pid], k) ==> st.procs[pid].rid != e.rid)
    case PlatformAnswers(k) =>
      && (e.Do? && Calling(st.procs[e.pid], k) ==> !e.obs.Error? && !e.obs.Cancelled?)
      && (e.Crash? ==> forall pid :: pid in st.procs && Calling(st.procs[pid], k) ==> st.procs[pid].rid != e.rid)
    case LockReturned(k) =>
      && (e.Do? && st.procs[e.pid].key == k && st.procs[e.pid].pc.WaitRedis? ==> Landed(e.obs) ==> e.obs.Done?)
      && (e.Do? && st.procs[e.pid].key == k && st.procs[e.pid].pc.UnlockRedis? ==> Landed(e.obs))
      && (e.Crash? ==> forall pid :: pid in st.procs && Calling(st.procs[pid], k) ==> st.procs[pid].rid != e.rid)
    case InWindow(k) => Bound(st, k).Some? && e.Tick? ==> Bound(Apply(c, st, e), k).Some?
    case CleanPass(pid) =>
      && (e.Do? && e.pid == pid ==> !e.obs.Error? && !e.obs.Lost? && !e.obs.Cancelled?)
      && (e.Crash? && pid in st.procs ==> st.procs[pid].rid != e.rid)
  }

  predicate Calling(p: Proc, k: Key) {
    p.key == k && CallPc(p.pc) && !p.pc.Gone?
  }

  /** Nothing goes wrong for a call on the key. */
  predicate Fair(k: Key, p: Proc, o: Obs) {
    Calling(p, k) ==> !o.Error? && !o.NotFound? && !o.Lost? && !o.Cancelled?
  }

  /** Every creator on `k` that has bound its sandbox is still within the session window. */
  ghost predicate AllFit(c: Config, st: State, k: Key) {
    forall pid :: pid in st.procs ==> Fits(c, st, k, st.procs[pid])
  }

  predicate Fits(c: Config, st: State, k: Key, p: Proc) {
    p.key == k && InSetup(p.pc) && p.sid in st.touched ==> st.now < st.touched[p.sid] + c.sessionTtl
  }

  ghost predicate AllInTime(c: Config, st: State, k: Key) {
    forall pid :: pid in st.procs && st.procs[pid].key == k ==> InTime(c, st.now, st.procs[pid])
  }

  predicate InTime(c: Config, now: nat, p: Proc) {
    p.got && Critical(p.pc) ==> now < p.since + c.lockTtl
  }

  ghost predicate Next(c: Config, A: set<Assumption>, st: State, e: Event, st': State) {
    && Can(st, e)
    && (forall a :: a in A ==> Respects(c, a, st, e))
    && st' == Apply(c, st, e)
  }

  /** `t` is reached from `st` by the events `es`, each under the assumptions `A`. */
  ghost predicate IsRun(c: Config, A: set<Assumption>, st: State, es: seq<Event>, t: State)
    decreases |es|
  {
    if es == [] then t == st
    else Can(st, es[0]) && Next(c, A, st, es[0], Apply(c, st, es[0])) && IsRun(c, A, Apply(c, st, es[0]), es[1..], t)
  }
}
