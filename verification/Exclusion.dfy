/**
  * When the two lock layers exclude. The local lock always excludes calls of one
  * replica; the Redis lock excludes across replicas as long as it is really acquired
  * and outlives the critical section.
  */
module Exclusion {
  import opened Options
  import opened TokenLease
  import opened Routing
  import opened Protocol
  import opened Moves

  predicate LocalHeld(pc: Pc) {
    pc.WaitRedis? || Critical(pc) || pc.UnlockLocal?
  }

  predicate HasLocal(st: State, pid: Pid, p: Proc) {
    LocalHeld(p.pc) ==> (p.rid, p.key) in st.local && st.local[(p.rid, p.key)] == pid
  }

  ghost predicate LocalOk(st: State) {
    forall pid :: pid in st.procs ==> HasLocal(st, pid, st.procs[pid])
  }

  /** How a process comes to be, and stays, behind its locks. */
  predicate LockShape(c: Config, now: nat, p: Proc, o: Obs, m: Move) {
    && (LocalHeld(m.next.pc) ==> (LocalHeld(p.pc) && !m.fx.FreeLocal?) || m.fx == TakeLocal(p.key))
    && (m.fx.TakeLocal? ==> o.Done?)
    && (m.fx.TakeRedis? ==> Landed(o))
    && (Critical(m.next.pc) ==>
          || (Critical(p.pc) && m.next.got == p.got && m.next.since == p.since && !m.fx.FreeRedis?)
          || (p.pc.WaitRedis? && o.Done? && m.fx == TakeRedis(p.key) && m.next.got && m.next.since == now)
          || (p.pc.WaitRedis? && o.Lost?)
          || (p.pc.WaitLocal? && !c.distributed))
  }

  lemma RouteLocks(c: Config, st: State, p: Proc, o: Obs)
    requires CallPc(p.pc) && !p.pc.PutForward? && !InSetup(p.pc) && Enabled(st, p, o) && !o.Cancelled?
    ensures LockShape(c, st.now, p, o, AdvanceRoute(c, st.now, p, o))
  {
  }

  lemma SetupLocks(c: Config, now: nat, p: Proc, o: Obs)
    requires p.pc.PutForward? || InSetup(p.pc)
    ensures LockShape(c, now, p, o, AdvanceSetup(p, o))
  {
  }

  lemma CancelLocks(c: Config, now: nat, p: Proc, applied: bool)
    ensures LockShape(c, now, p, Cancelled(applied), Move(Unwound(p), When(applied, Sent(p))))
  {
  }

  lemma BystanderLocks(c: Config, st: State, p: Proc, o: Obs, m: Move)
    requires !CallPc(p.pc) && Shape(st, p, o, m)
    ensures LockShape(c, st.now, p, o, m)
  {
  }

  lemma AdvanceLocks(c: Config, st: State, p: Proc, o: Obs)
    requires Enabled(st, p, o)
    ensures LockShape(c, st.now, p, o, Advance(c, st.now, p, o))
  {
    if o.Cancelled? {
      CancelLocks(c, st.now, p, o.applied);
    } else if EndPc(p.pc) || ReapPc(p.pc) {
      AdvanceShape(c, st, p, o);
      BystanderLocks(c, st, p, o, Advance(c, st.now, p, o));
    } else if p.pc.PutForward? || InSetup(p.pc) {
      SetupLocks(c, st.now, p, o);
    } else {
      RouteLocks(c, st, p, o);
    }
  }

  lemma CommitLocal(c: Config, st: State, pid: Pid, rid: Rid, f: Fx)
    ensures var t := Commit(c, st, pid, rid, f);
            t.procs == st.procs && t.local ==
              if f.TakeLocal? then st.local[(rid, f.key) := pid]
              else if f.FreeLocal? then st.local - {(rid, f.key)} else st.local
  {
  }

  /** A lock is only taken when it is there to be taken. */
  lemma TakenWasFree(c: Config, st: State, p: Proc, o: Obs, m: Move)
    requires Enabled(st, p, o) && Shape(st, p, o, m) && LockShape(c, st.now, p, o, m)
    ensures m.fx.TakeLocal? ==> (p.rid, p.key) !in st.local
    ensures m.fx.TakeRedis? ==> Free(Slot(st, p.key), st.now)
  {
  }

  lemma MoveKeepsLocal(c: Config, st: State, pid: Pid, o: Obs, m: Move)
    requires LocalOk(st) && pid in st.procs && (m.fx.TakeLocal? ==> (st.procs[pid].rid, st.procs[pid].key) !in st.local)
    requires Shape(st, st.procs[pid], o, m) && LockShape(c, st.now, st.procs[pid], o, m)
    ensures LocalOk(After(c, st, pid, m))
  {
    hide Commit;
    CommitLocal(c, st, pid, m.next.rid, m.fx);
    assert HasLocal(st, pid, st.procs[pid]);
  }

  lemma StepKeepsLocal(c: Config, st: State, e: Event)
    requires LocalOk(st) && Can(st, e)
    ensures LocalOk(Apply(c, st, e))
  {
    if e.Do? {
      AdvanceShape(c, st, st.procs[e.pid], e.obs);
      AdvanceLocks(c, st, st.procs[e.pid], e.obs);
      TakenWasFree(c, st, st.procs[e.pid], e.obs, Advance(c, st.now, st.procs[e.pid], e.obs));
      MoveKeepsLocal(c, st, e.pid, e.obs, Advance(c, st.now, st.procs[e.pid], e.obs));
    }
  }

  lemma {:induction false} RunKeepsLocal(c: Config, A: set<Assumption>, st: State, es: seq<Event>, t: State)
    requires LocalOk(st) && IsRun(c, A, st, es, t)
    ensures LocalOk(t)
    decreases |es|
  {
    hide Apply, LocalOk, Respects;
    if es != [] {
      StepKeepsLocal(c, st, es[0]);
      RunKeepsLocal(c, A, Apply(c, st, es[0]), es[1..], t);
    }
  }

  // ------------------------------------------------------------------------ one replica

  /** The calls on the key that are not finished run on the one replica. */
  ghost predicate Single(st: State, r: Rid, k: Key) {
    forall pid :: pid in st.procs && Calling(st.procs[pid], k) ==> st.procs[pid].rid == r
  }

  lemma StepKeepsSingle(c: Config, st: State, e: Event, r: Rid, k: Key)
    requires Single(st, r, k) && Can(st, e) && Respects(c, OneReplica(r, k), st, e)
    ensures Single(Apply(c, st, e), r, k)
  {
    forall pid | pid in Apply(c, st, e).procs && Calling(Apply(c, st, e).procs[pid], k)
      ensures Apply(c, st, e).procs[pid].rid == r
    {
      ProcsAfter(c, st, e, pid);
      if e.Do? {
        CallsStayCalls(c, st, st.procs[e.pid], e.obs, k);
      }
    }
  }

  /** A call was one before, on the same key and replica. */
  lemma CallsStayCalls(c: Config, st: State, p: Proc, o: Obs, k: Key)
    requires Enabled(st, p, o)
    ensures var q := Advance(c, st.now, p, o).next; Calling(q, k) ==> Calling(p, k) && q.rid == p.rid
  {
    AdvanceShape(c, st, p, o);
  }

  lemma SingleAlone(st: State, r: Rid, k: Key)
    requires LocalOk(st) && Single(st, r, k)
    ensures Alone(st, k)
  {
    forall a, b | Inside(st, k, a) && Inside(st, k, b)
      ensures a == b
    {
      assert HasLocal(st, a, st.procs[a]) && HasLocal(st, b, st.procs[b]);
    }
  }

  // ---------------------------------------------------------------------- many replicas

  predicate HasRedis(c: Config, st: State, k: Key, pid: Pid, p: Proc) {
    p.key == k && Critical(p.pc) ==> p.got && k in st.redis && st.redis[k] == Lease(pid, p.since + c.lockTtl)
  }

  ghost predicate RedisOk(c: Config, st: State, k: Key) {
    forall pid :: pid in st.procs ==> HasRedis(c, st, k, pid, st.procs[pid])
  }

  lemma CommitRedis(c: Config, st: State, pid: Pid, rid: Rid, f: Fx)
    ensures var t := Commit(c, st, pid, rid, f);
            t.procs == st.procs && t.redis ==
              if f.TakeRedis? then st.redis[f.key := Lease(pid, st.now + c.lockTtl)]
              else if f.FreeRedis? && Release(Slot(st, f.key), st.now, pid).None? then st.redis - {f.key} else st.redis
  {
  }

  lemma MoveKeepsRedis(c: Config, st: State, pid: Pid, o: Obs, m: Move, k: Key)
    requires c.distributed && RedisOk(c, st, k) && AllInTime(c, st, k)
    requires pid in st.procs && (m.fx.TakeRedis? ==> Free(Slot(st, st.procs[pid].key), st.now))
    requires st.procs[pid].key == k && st.procs[pid].pc.WaitRedis? ==> !o.Lost?
    requires Shape(st, st.procs[pid], o, m) && LockShape(c, st.now, st.procs[pid], o, m)
    ensures RedisOk(c, After(c, st, pid, m), k)
  {
    hide Commit;
    CommitRedis(c, st, pid, m.next.rid, m.fx);
    assert HasRedis(c, st, k, pid, st.procs[pid]);
    forall q | q in st.procs && q != pid
      ensures HasRedis(c, After(c, st, pid, m), k, q, st.procs[q])
    {
      assert HasRedis(c, st, k, q, st.procs[q]) && (st.procs[q].key == k ==> InTime(c, st.now, st.procs[q]));
    }
  }

  lemma DoKeepsRedis(c: Config, st: State, pid: Pid, o: Obs, k: Key)
    requires c.distributed && RedisOk(c, st, k) && AllInTime(c, st, k) && Can(st, Do(pid, o))
    requires st.procs[pid].key == k && st.procs[pid].pc.WaitRedis? ==> !o.Lost?
    ensures RedisOk(c, Apply(c, st, Do(pid, o)), k)
  {
    hide Advance, Commit, Enabled, Shape, LockShape, AllInTime, RedisOk;
    AdvanceShape(c, st, st.procs[pid], o);
    AdvanceLocks(c, st, st.procs[pid], o);
    TakenWasFree(c, st, st.procs[pid], o, Advance(c, st.now, st.procs[pid], o));
    MoveKeepsRedis(c, st, pid, o, Advance(c, st.now, st.procs[pid], o), k);
  }

  lemma EnvironmentKeepsRedis(c: Config, st: State, e: Event, k: Key)
    requires RedisOk(c, st, k) && Can(st, e) && !e.Do? && (e.Forget? ==> k !in e.locks)
    ensures RedisOk(c, Apply(c, st, e), k)
  {
    hide Advance, Commit, Enabled;
    forall pid | pid in Apply(c, st, e).procs
      ensures HasRedis(c, Apply(c, st, e), k, pid, Apply(c, st, e).procs[pid])
    {
      assert pid in st.procs ==> HasRedis(c, st, k, pid, st.procs[pid]);
    }
  }

  lemma StepKeepsRedis(c: Config, st: State, e: Event, k: Key)
    requires c.distributed && RedisOk(c, st, k) && AllInTime(c, st, k) && Can(st, e)
    requires Respects(c, LocksTaken(k), st, e) && Respects(c, Timely(k), st, e)
    ensures RedisOk(c, Apply(c, st, e), k)
  {
    hide Apply, RedisOk, AllInTime;
    if e.Do? {
      DoKeepsRedis(c, st, e.pid, e.obs, k);
    } else {
      EnvironmentKeepsRedis(c, st, e, k);
    }
  }

  lemma RedisAlone(c: Config, st: State, k: Key)
    requires RedisOk(c, st, k)
    ensures Alone(st, k)
  {
    forall a, b | Inside(st, k, a) && Inside(st, k, b)
      ensures a == b
    {
      assert HasRedis(c, st, k, a, st.procs[a]) && HasRedis(c, st, k, b, st.procs[b]);
    }
  }

  // ------------------------------------------------------------------------------- runs

  ghost predicate OnOneReplica(A: set<Assumption>, k: Key) {
    exists r :: OneReplica(r, k) in A
  }

  predicate ByRedis(c: Config, A: set<Assumption>, k: Key) {
    c.distributed && LocksTaken(k) in A && Timely(k) in A
  }

  /** The conditions under which the locks of a key exclude: one replica, or real and timely Redis locks. */
  ghost predicate Locked(c: Config, A: set<Assumption>, k: Key) {
    OnOneReplica(A, k) || ByRedis(c, A, k)
  }

  ghost predicate LocksOk(c: Config, A: set<Assumption>, st: State, k: Key) {
    && LocalOk(st)
    && (forall r :: OneReplica(r, k) in A ==> Single(st, r, k))
    && (ByRedis(c, A, k) ==> RedisOk(c, st, k) && AllInTime(c, st, k))
  }

  lemma StepKeepsLocks(c: Config, A: set<Assumption>, st: State, e: Event, k: Key)
    requires LocksOk(c, A, st, k) && Can(st, e) && (forall a :: a in A ==> Respects(c, a, st, e))
    ensures LocksOk(c, A, Apply(c, st, e), k)
  {
    hide Apply, LocalOk, Single, RedisOk, AllInTime;
    StepKeepsLocal(c, st, e);
    forall r | OneReplica(r, k) in A
      ensures Single(Apply(c, st, e), r, k)
    {
      StepKeepsSingle(c, st, e, r, k);
    }
    if ByRedis(c, A, k) {
      StepKeepsRedis(c, st, e, k);
    }
  }

  lemma LocksExclude(c: Config, A: set<Assumption>, st: State, k: Key)
    requires Locked(c, A, k) && LocksOk(c, A, st, k)
    ensures Alone(st, k)
  {
    if OnOneReplica(A, k) {
      var r :| OneReplica(r, k) in A;
      SingleAlone(st, r, k);
    } else {
      RedisAlone(c, st, k);
    }
  }

  /**
    * Mutual exclusion: a run in which the locks of a key do their work, whatever those of other
    * keys do, is a run in which calls on the key exclude each other, so every property
    * proved under `Exclusive` holds of it.
    */
  lemma {:induction false} LockedRunsExclude(c: Config, L: set<Assumption>, A: set<Assumption>, st: State, es: seq<Event>, t: State, k: Key)
    requires Locked(c, L, k) && L <= A && LocksOk(c, L, st, k) && IsRun(c, A, st, es, t)
    ensures IsRun(c, A + {Exclusive(k)}, st, es, t) && LocksOk(c, L, t, k) && Alone(t, k)
    decreases |es|
  {
    hide Apply, Locked, LocksOk;
    LocksExclude(c, L, st, k);
    if es != [] {
      StepKeepsLocks(c, L, st, es[0], k);
      LocksExclude(c, L, Apply(c, st, es[0]), k);
      LockedRunsExclude(c, L, A, Apply(c, st, es[0]), es[1..], t, k);
    }
  }

  /** Nobody is calling on the key or ending its session. */
  ghost predicate AtRest(st: State, k: Key) {
    forall pid :: pid in st.procs && st.procs[pid].key == k ==> st.procs[pid].pc.Gone? || ReapPc(st.procs[pid].pc)
  }

  /** Wherever the key is at rest, its locks can do their work from then on, whatever came before. */
  lemma RestIsLocked(c: Config, L: set<Assumption>, A: set<Assumption>, before: seq<Event>, st: State, k: Key)
    requires IsRun(c, A, Init(), before, st) && AtRest(st, k)
    ensures LocksOk(c, L, st, k)
  {
    RunKeepsLocal(c, A, Init(), before, st);
  }
}
