/**
  * Calls come to an end, and a good one: whatever Redis does, a call whose sandbox platform
  * answers returns a client and is served, in a bounded number of steps; once it has its
  * local lock it needs nobody else for that; and the locks it took it gives back.
  */
module Completion {
  import opened Options
  import opened TokenLease
  import opened Routing
  import opened Protocol
  import opened Moves
  import opened Isolation
  import opened Exclusion

  /** The call on the key has not failed: it is on its way to a client, returns one, or has been served with one. */
  predicate OnTrack(st: State, k: Key, p: Proc) {
    && p.key == k && CallPc(p.pc) && !p.pc.Rollback?
    && (p.pc.UnlockRedis? || p.pc.UnlockLocal? || p.pc.Serve? ==> p.ok)
    && (p.pc.Gone? ==> Service(k, p.sid) in st.served)
  }

  // ---------------------------------------------------------- no failure of Redis fails a call

  /** A step of a call that the platform does not fail, summed up. */
  predicate Goes(p: Proc, m: Move) {
    && m.next.key == p.key && CallPc(m.next.pc) && !m.next.pc.Rollback?
    && (m.next.pc.UnlockRedis? || m.next.pc.UnlockLocal? || m.next.pc.Serve? ==> m.next.ok)
    && (m.next.pc.Gone? ==> m.fx == Serving(p.key, m.next.sid))
  }

  predicate Leaving(pc: Pc) {
    pc.UnlockRedis? || pc.UnlockLocal? || pc.Serve?
  }

  lemma RouteGoes(c: Config, st: State, p: Proc, o: Obs)
    requires Enabled(st, p, o) && !o.Error? && !o.Cancelled? && CallPc(p.pc) && !p.pc.Gone?
    requires !(p.pc.PutForward? || InSetup(p.pc)) && !Leaving(p.pc)
    ensures Goes(p, AdvanceRoute(c, st.now, p, o))
  {
  }

  lemma LeavingGoes(c: Config, st: State, p: Proc, o: Obs)
    requires Enabled(st, p, o) && !o.Error? && !o.Cancelled? && Leaving(p.pc) && p.ok
    ensures Goes(p, AdvanceRoute(c, st.now, p, o))
  {
  }

  lemma SetupGoes(st: State, p: Proc, o: Obs)
    requires Enabled(st, p, o) && !o.Error? && !o.Cancelled? && !p.pc.Rollback? && (p.pc.PutForward? || InSetup(p.pc))
    ensures Goes(p, AdvanceSetup(p, o))
  {
  }

  lemma CallGoes(c: Config, st: State, p: Proc, o: Obs, k: Key)
    requires Enabled(st, p, o) && !o.Error? && !o.Cancelled? && OnTrack(st, k, p) && !p.pc.Gone?
    ensures Goes(p, Advance(c, st.now, p, o))
  {
    hide AdvanceRoute, AdvanceSetup, Enabled, Goes;
    if p.pc.PutForward? || InSetup(p.pc) {
      SetupGoes(st, p, o);
    } else if Leaving(p.pc) {
      LeavingGoes(c, st, p, o);
    } else {
      RouteGoes(c, st, p, o);
    }
  }

  lemma CommitServes(c: Config, st: State, pid: Pid, rid: Rid, f: Fx)
    ensures Commit(c, st, pid, rid, f).served == (if f.Serving? then st.served + {Service(f.key, f.sid)} else st.served)
  {
  }

  lemma StepKeepsTrack(c: Config, st: State, e: Event, pid: Pid, k: Key)
    requires Can(st, e) && Respects(c, PlatformAnswers(k), st, e) && pid in st.procs && OnTrack(st, k, st.procs[pid])
    ensures pid in Apply(c, st, e).procs && OnTrack(Apply(c, st, e), k, Apply(c, st, e).procs[pid])
  {
    hide Advance, Commit, Enabled;
    if e.Do? {
      var m := Advance(c, st.now, st.procs[e.pid], e.obs);
      CommitServes(c, st, e.pid, m.next.rid, m.fx);
      if e.pid == pid {
        GoneStays(st, st.procs[pid], e.obs);
        CallGoes(c, st, st.procs[pid], e.obs, k);
      }
    } else {
      EnvironmentFrame(c, st, e);
    }
  }

  lemma GoneStays(st: State, p: Proc, o: Obs)
    requires Enabled(st, p, o)
    ensures !p.pc.Gone?
  {
  }

  lemma {:induction false} RunKeepsTrack(c: Config, A: set<Assumption>, st: State, es: seq<Event>, t: State, pid: Pid, k: Key)
    requires IsRun(c, A, st, es, t) && PlatformAnswers(k) in A && pid in st.procs && OnTrack(st, k, st.procs[pid])
    ensures pid in t.procs && OnTrack(t, k, t.procs[pid])
    decreases |es|
  {
    hide Apply, OnTrack, Respects;
    if es != [] {
      StepKeepsTrack(c, st, es[0], pid, k);
      RunKeepsTrack(c, A, Apply(c, st, es[0]), es[1..], t, pid, k);
    }
  }

  /**
    * Redis fails no call. From any reachable state in which a call starts, whatever Redis loses, refuses
    * or answers late, to that call or any other: if the platform answers the calls on the key, then the
    * call, once it leaves its critical section, returns a client, and once it is over its command has
    * run, in a sandbox created for its key.
    */
  lemma RedisFailsNoCall(c: Config, A: set<Assumption>, before: seq<Event>, st: State, es: seq<Event>, t: State, pid: Pid, k: Key)
    requires IsRun(c, {}, Init(), before, st) && pid in st.procs && st.procs[pid].key == k && st.procs[pid].pc.WaitLocal?
    requires IsRun(c, A, st, es, t) && PlatformAnswers(k) in A
    ensures pid in t.procs
    ensures t.procs[pid].pc.UnlockRedis? || t.procs[pid].pc.UnlockLocal? || t.procs[pid].pc.Serve? ==>
              t.procs[pid].ok && Owned(t, t.procs[pid].sid, k)
    ensures t.procs[pid].pc.Gone? ==> Service(k, t.procs[pid].sid) in t.served && Owned(t, t.procs[pid].sid, k)
  {
    hide IsRun;
    RunKeepsTrack(c, A, st, es, t, pid, k);
    RunKeepsInv(c, {}, Init(), before, st);
    RunKeepsInv(c, A, st, es, t);
  }

  // ---------------------------------------------------------------------- a bounded call

  /** No more than this many steps are left to a call. */
  function Ahead(pc: Pc): nat {
    match pc
    case WaitLocal => 15
    case WaitRedis => 14
    case Lookup => 13
    case Refresh => 12
    case Ensure => 11
    case Reset => 10
    case Create => 9
    case PutForward => 8
    case PutIndex => 7
    case CheckBoot => 6
    case Boot => 5
    case Mark => 4
    case Rollback => 4
    case UnlockRedis => 3
    case UnlockLocal => 2
    case Serve => 1
    case _ => 0
  }

  lemma RouteShortens(c: Config, now: nat, p: Proc, o: Obs)
    requires CallPc(p.pc) && !p.pc.Gone? && !(p.pc.PutForward? || InSetup(p.pc))
    ensures Ahead(AdvanceRoute(c, now, p, o).next.pc) < Ahead(p.pc)
  {
  }

  lemma SetupShortens(p: Proc, o: Obs)
    requires p.pc.PutForward? || InSetup(p.pc)
    ensures Ahead(AdvanceSetup(p, o).next.pc) < Ahead(p.pc)
  {
  }

  lemma CancelShortens(p: Proc)
    requires CallPc(p.pc) && !p.pc.UnlockLocal? && !p.pc.Gone?
    ensures Ahead(Unwound(p).pc) < Ahead(p.pc)
  {
  }

  lemma CallShortens(c: Config, st: State, p: Proc, o: Obs)
    requires Enabled(st, p, o) && CallPc(p.pc)
    ensures Ahead(Advance(c, st.now, p, o).next.pc) < Ahead(p.pc)
  {
    hide Ahead, AdvanceRoute, AdvanceSetup, Unwound;
    GoneStays(st, p, o);
    if o.Cancelled? {
      CancelShortens(p);
    } else if p.pc.PutForward? || InSetup(p.pc) {
      SetupShortens(p, o);
    } else {
      RouteShortens(c, st.now, p, o);
    }
  }

  /** How many of the events are steps of the process. */
  function Steps(es: seq<Event>, pid: Pid): nat {
    if es == [] then 0 else (if es[0].Do? && es[0].pid == pid then 1 else 0) + Steps(es[1..], pid)
  }

  lemma StepShortens(c: Config, st: State, e: Event, pid: Pid)
    requires Can(st, e) && pid in st.procs && CallPc(st.procs[pid].pc)
    ensures pid in Apply(c, st, e).procs && CallPc(Apply(c, st, e).procs[pid].pc)
    ensures Ahead(Apply(c, st, e).procs[pid].pc) + (if e.Do? && e.pid == pid then 1 else 0) <= Ahead(st.procs[pid].pc)
  {
    hide Advance, Commit, Enabled;
    if e.Do? {
      if e.pid == pid {
        CallShortens(c, st, st.procs[pid], e.obs);
        AdvanceShape(c, st, st.procs[pid], e.obs);
      }
    } else {
      EnvironmentSurvivors(c, st, e);
      StaysInProcs(c, st, e, pid);
    }
  }

  lemma StaysInProcs(c: Config, st: State, e: Event, pid: Pid)
    requires Can(st, e) && !e.Do? && pid in st.procs
    ensures pid in Apply(c, st, e).procs
  {
  }

  /** No call takes more than fifteen steps, whatever goes wrong in it and around it. */
  lemma {:induction false} CallsAreShort(c: Config, A: set<Assumption>, st: State, es: seq<Event>, t: State, pid: Pid)
    requires IsRun(c, A, st, es, t) && pid in st.procs && CallPc(st.procs[pid].pc)
    ensures pid in t.procs && CallPc(t.procs[pid].pc) && Steps(es, pid) + Ahead(t.procs[pid].pc) <= Ahead(st.procs[pid].pc) <= 15
    decreases |es|
  {
    hide Apply, Respects;
    if es != [] {
      StepShortens(c, st, es[0], pid);
      CallsAreShort(c, A, Apply(c, st, es[0]), es[1..], t, pid);
    }
  }

  // -------------------------------------------------------------- a call needs nobody else

  /** An answer that fails nothing; a lock that is taken counts as not acquired in time. */
  function Kindly(st: State, p: Proc, id: Sid): Obs {
    match p.pc
    case WaitRedis => if Free(Slot(st, p.key), st.now) then Done else Lost(false)
    case Lookup => Seen(Bound(st, p.key))
    case Ensure => if p.sid in st.live then Done else NotFound
    case Create => Fresh(id)
    case CheckBoot => Flagged(p.sid in st.flags)
    case _ => Done
  }

  /** Nothing stands in the way of the call: its local lock, or the loss of the sandbox it sets up. */
  predicate Unhindered(st: State, p: Proc) {
    && (p.pc.WaitLocal? ==> (p.rid, p.key) !in st.local)
    && (p.pc.PutForward? || InSetup(p.pc) ==> p.sid in st.live)
  }

  /** The call may still come to create. */
  predicate MayCreate(pc: Pc) {
    Ahead(pc) >= Ahead(Create)
  }

  lemma KindlyEnabled(st: State, p: Proc, id: Sid)
    requires CallPc(p.pc) && !p.pc.Gone? && Unhindered(st, p) && (p.pc.Create? ==> id !in st.owner)
    ensures Enabled(st, p, Kindly(st, p, id)) && !Kindly(st, p, id).Error? && !Kindly(st, p, id).Cancelled?
  {
  }

  /** Told kindly, a call keeps the sandbox it sets up, or creates it. */
  predicate Keeps(p: Proc, m: Move) {
    && !m.next.pc.WaitLocal? && !m.fx.Delete? && (m.fx.Provision? ==> !MayCreate(m.next.pc))
    && (m.next.pc.PutForward? || InSetup(m.next.pc) ==>
          (m.next.sid == p.sid && (p.pc.PutForward? || InSetup(p.pc))) || m.fx == Provision(m.next.sid, p.key))
    && (MayCreate(m.next.pc) ==> MayCreate(p.pc))
  }

  lemma RouteKeeps(c: Config, st: State, p: Proc, id: Sid)
    requires CallPc(p.pc) && !p.pc.Gone? && !(p.pc.PutForward? || InSetup(p.pc))
    ensures Keeps(p, AdvanceRoute(c, st.now, p, Kindly(st, p, id)))
  {
  }

  lemma SetupKeeps(p: Proc, o: Obs)
    requires p.pc.PutForward? || InSetup(p.pc)
    ensures Keeps(p, AdvanceSetup(p, o))
  {
  }

  lemma CommitKeeps(c: Config, st: State, pid: Pid, rid: Rid, f: Fx)
    requires !f.Delete?
    ensures var t := Commit(c, st, pid, rid, f);
            && t.live == (if f.Provision? then st.live + {f.sid} else st.live)
            && (!f.Provision? ==> t.owner == st.owner)
  {
  }

  lemma KindlyGoesOn(c: Config, st: State, pid: Pid, p: Proc, id: Sid)
    requires pid in st.procs && st.procs[pid] == p && CallPc(p.pc) && !p.pc.Gone?
    requires Unhindered(st, p) && (MayCreate(p.pc) ==> id !in st.owner)
    ensures Can(st, Do(pid, Kindly(st, p, id)))
    ensures var t := Apply(c, st, Do(pid, Kindly(st, p, id)));
            pid in t.procs && Unhindered(t, t.procs[pid]) && (MayCreate(t.procs[pid].pc) ==> id !in t.owner)
  {
    hide AdvanceRoute, AdvanceSetup, Kindly, Commit, Enabled;
    KindlyEnabled(st, p, id);
    var m := Advance(c, st.now, p, Kindly(st, p, id));
    if p.pc.PutForward? || InSetup(p.pc) {
      SetupKeeps(p, Kindly(st, p, id));
    } else {
      RouteKeeps(c, st, p, id);
    }
    CommitKeeps(c, st, pid, m.next.rid, m.fx);
  }

  lemma KindlyRespects(c: Config, st: State, pid: Pid, o: Obs, k: Key)
    requires Can(st, Do(pid, o)) && !o.Error? && !o.Cancelled?
    ensures Respects(c, PlatformAnswers(k), st, Do(pid, o))
  {
  }

  /**
    * A call needs nobody else: from any state in which a call can have its local lock or has passed it, and
    * what it sets up has not been lost, there is a run of its own steps alone, whoever has the
    * Redis lock, in which it is served.
    */
  lemma {:induction false} FinishesAlone(c: Config, st: State, pid: Pid, k: Key, id: Sid) returns (es: seq<Event>, t: State)
    requires pid in st.procs && OnTrack(st, k, st.procs[pid])
    requires Unhindered(st, st.procs[pid]) && (MayCreate(st.procs[pid].pc) ==> id !in st.owner)
    ensures IsRun(c, {PlatformAnswers(k)}, st, es, t) && forall e :: e in es ==> e.Do? && e.pid == pid
    ensures pid in t.procs && t.procs[pid].pc.Gone? && Service(k, t.procs[pid].sid) in t.served
    decreases Ahead(st.procs[pid].pc)
  {
    hide Apply, Respects, Enabled;
    var p := st.procs[pid];
    if p.pc.Gone? {
      es, t := [], st;
    } else {
      var e := Do(pid, Kindly(st, p, id));
      KindlyEnabled(st, p, id);
      KindlyGoesOn(c, st, pid, p, id);
      KindlyRespects(c, st, pid, Kindly(st, p, id), k);
      StepKeepsTrack(c, st, e, pid, k);
      StepShortens(c, st, e, pid);
      var next := Apply(c, st, e);
      es, t := FinishesAlone(c, next, pid, k, id);
      assert ([e] + es)[1..] == es;
      es := [e] + es;
    }
  }

  // ------------------------------------------------------------- locks are given back

  /** How a call comes to have its locks and to be rid of them. */
  predicate Returns(p: Proc, o: Obs, m: Move) {
    && m.next.rid == p.rid
    && (LocalHeld(p.pc) ==> m.next.key == p.key && (LocalHeld(m.next.pc) <==> m.fx != FreeLocal(p.key)))
    && (m.fx.TakeLocal? ==> m.fx.key == p.key == m.next.key && LocalHeld(m.next.pc))
    && (m.fx.FreeLocal? ==> m.fx.key == p.key && LocalHeld(p.pc))
    && (Critical(p.pc) && p.got && !p.pc.UnlockRedis? ==> Critical(m.next.pc) && m.next.got)
    && (m.fx.TakeRedis? ==> m.fx.key == p.key && p.pc.WaitRedis? && Landed(o)
                            && (o.Done? ==> Critical(m.next.pc) && m.next.got && m.next.key == p.key))
    && (m.fx.FreeRedis? ==> m.fx.key == p.key && p.pc.UnlockRedis?)
    && (p.pc.UnlockRedis? && Landed(o) ==> m.fx == FreeRedis(p.key))
  }

  lemma RouteReturns(c: Config, st: State, p: Proc, o: Obs)
    requires Enabled(st, p, o) && !o.Cancelled? && CallPc(p.pc) && !(p.pc.PutForward? || InSetup(p.pc)) && !Leaving(p.pc)
    ensures Returns(p, o, AdvanceRoute(c, st.now, p, o))
  {
  }

  lemma LeavingReturns(c: Config, st: State, p: Proc, o: Obs)
    requires Enabled(st, p, o) && !o.Cancelled? && Leaving(p.pc)
    ensures Returns(p, o, AdvanceRoute(c, st.now, p, o))
  {
  }

  lemma SetupReturns(p: Proc, o: Obs)
    requires p.pc.PutForward? || InSetup(p.pc)
    ensures Returns(p, o, AdvanceSetup(p, o))
  {
  }

  lemma CancelReturns(p: Proc, applied: bool)
    requires !p.pc.UnlockLocal?
    ensures Returns(p, Cancelled(applied), Move(Unwound(p), When(applied, Sent(p))))
  {
  }

  lemma OthersReturn(p: Proc, o: Obs)
    requires EndPc(p.pc) || ReapPc(p.pc)
    ensures Returns(p, o, AdvanceEnd(p, o)) || !EndPc(p.pc)
    ensures Returns(p, o, AdvanceReap(p, o)) || !ReapPc(p.pc)
  {
  }

  lemma AdvanceReturns(c: Config, st: State, p: Proc, o: Obs)
    requires Enabled(st, p, o)
    ensures Returns(p, o, Advance(c, st.now, p, o))
  {
    hide AdvanceRoute, AdvanceSetup, AdvanceEnd, AdvanceReap, Unwound, Sent, Returns;
    if o.Cancelled? {
      CancelReturns(p, o.applied);
    } else if EndPc(p.pc) || ReapPc(p.pc) {
      OthersReturn(p, o);
    } else if p.pc.PutForward? || InSetup(p.pc) {
      SetupReturns(p, o);
    } else if Leaving(p.pc) {
      LeavingReturns(c, st, p, o);
    } else {
      RouteReturns(c, st, p, o);
    }
  }

  predicate HeldBy(st: State, r: Rid, k: Key, pid: Pid) {
    pid in st.procs && st.procs[pid].rid == r && st.procs[pid].key == k && LocalHeld(st.procs[pid].pc)
  }

  /** Every local lock that is taken is that of a call which has it now. */
  ghost predicate LocalHeldNow(st: State) {
    forall rk :: rk in st.local ==> HeldBy(st, rk.0, rk.1, st.local[rk])
  }

  /** A Redis lock of the key that is running is that of a call inside the critical section. */
  predicate LeaseHeldNow(st: State, k: Key) {
    !Free(Slot(st, k), st.now) ==>
      var pid := st.redis[k].token;
      pid in st.procs && st.procs[pid].key == k && st.procs[pid].got && Critical(st.procs[pid].pc)
  }

  lemma MoveKeepsLocalHeld(c: Config, st: State, pid: Pid, o: Obs, m: Move)
    requires LocalHeldNow(st) && LocalOk(st) && pid in st.procs && Returns(st.procs[pid], o, m)
    ensures LocalHeldNow(After(c, st, pid, m))
  {
    hide Commit, LocalHeld;
    CommitLocal(c, st, pid, m.next.rid, m.fx);
    assert HasLocal(st, pid, st.procs[pid]);
  }

  lemma StepKeepsLocalHeld(c: Config, st: State, e: Event)
    requires LocalHeldNow(st) && LocalOk(st) && Can(st, e)
    ensures LocalHeldNow(Apply(c, st, e))
  {
    hide Advance, Commit, Enabled, LocalHeld;
    if e.Do? {
      AdvanceReturns(c, st, st.procs[e.pid], e.obs);
      MoveKeepsLocalHeld(c, st, e.pid, e.obs, Advance(c, st.now, st.procs[e.pid], e.obs));
    }
  }

  lemma {:induction false} RunKeepsLocalHeld(c: Config, A: set<Assumption>, st: State, es: seq<Event>, t: State)
    requires LocalHeldNow(st) && LocalOk(st) && IsRun(c, A, st, es, t)
    ensures LocalHeldNow(t)
    decreases |es|
  {
    hide Apply, LocalHeldNow, LocalOk, Respects;
    if es != [] {
      StepKeepsLocalHeld(c, st, es[0]);
      StepKeepsLocal(c, st, es[0]);
      RunKeepsLocalHeld(c, A, Apply(c, st, es[0]), es[1..], t);
    }
  }

  lemma MoveKeepsLease(c: Config, st: State, pid: Pid, o: Obs, m: Move, k: Key)
    requires LeaseHeldNow(st, k) && pid in st.procs && Returns(st.procs[pid], o, m)
    requires st.procs[pid].key == k && st.procs[pid].pc.WaitRedis? ==> Landed(o) ==> o.Done?
    requires st.procs[pid].key == k && st.procs[pid].pc.UnlockRedis? ==> Landed(o)
    ensures LeaseHeldNow(After(c, st, pid, m), k)
  {
    hide Commit;
    CommitRedis(c, st, pid, m.next.rid, m.fx);
    CommitLocal(c, st, pid, m.next.rid, m.fx);
    CommitTime(c, st, pid, m.next.rid, m.fx);
  }

  lemma CommitTime(c: Config, st: State, pid: Pid, rid: Rid, f: Fx)
    ensures Commit(c, st, pid, rid, f).now == st.now
  {
  }

  lemma EnvironmentKeepsLease(c: Config, st: State, e: Event, k: Key)
    requires LeaseHeldNow(st, k) && Can(st, e) && !e.Do?
    requires e.Crash? ==> forall pid :: pid in st.procs && Calling(st.procs[pid], k) ==> st.procs[pid].rid != e.rid
    ensures LeaseHeldNow(Apply(c, st, e), k)
  {
    hide Advance, Commit, Enabled;
  }

  lemma StepKeepsLease(c: Config, st: State, e: Event, k: Key)
    requires LeaseHeldNow(st, k) && Can(st, e) && Respects(c, LockReturned(k), st, e)
    ensures LeaseHeldNow(Apply(c, st, e), k)
  {
    hide Advance, Commit, Enabled, Returns, LeaseHeldNow;
    if e.Do? {
      AdvanceReturns(c, st, st.procs[e.pid], e.obs);
      MoveKeepsLease(c, st, e.pid, e.obs, Advance(c, st.now, st.procs[e.pid], e.obs), k);
    } else {
      EnvironmentKeepsLease(c, st, e, k);
    }
  }

  lemma {:induction false} RunKeepsLease(c: Config, A: set<Assumption>, st: State, es: seq<Event>, t: State, k: Key)
    requires LeaseHeldNow(st, k) && IsRun(c, A, st, es, t) && LockReturned(k) in A
    ensures LeaseHeldNow(t, k)
    decreases |es|
  {
    hide Apply, LeaseHeldNow, Respects;
    if es != [] {
      StepKeepsLease(c, st, es[0], k);
      RunKeepsLease(c, A, Apply(c, st, es[0]), es[1..], t, k);
    }
  }

  lemma HolderIsCalling(st: State, r: Rid, k: Key, pid: Pid)
    requires HeldBy(st, r, k, pid)
    ensures pid in st.procs && Calling(st.procs[pid], k)
  {
  }

  lemma StartsFree(k: Key)
    ensures LocalHeldNow(Init()) && LocalOk(Init()) && LeaseHeldNow(Init(), k)
  {
  }

  lemma LeaseIsInside(t: State, k: Key)
    requires LeaseHeldNow(t, k) && !Free(Slot(t, k), t.now)
    ensures Inside(t, k, t.redis[k].token) && Calling(t.procs[t.redis[k].token], k)
  {
  }

  /**
    * No lock outlives its call: in every run a local lock that is taken is that of an unfinished call which
    * has it; and in every run in which no Redis lock of the key is granted unheard, releases of it are applied
    * and no caller dies, a Redis lock of the key that is running is that of a call inside the section.
    * So where no call on the key is unfinished, both locks are free.
    */
  lemma LocksComeBack(c: Config, A: set<Assumption>, es: seq<Event>, t: State, r: Rid, k: Key)
    requires IsRun(c, A, Init(), es, t)
    ensures (r, k) in t.local ==> HeldBy(t, r, k, t.local[(r, k)])
    ensures LockReturned(k) in A && !Free(Slot(t, k), t.now) ==> exists pid :: Inside(t, k, pid) && t.redis[k].token == pid
    ensures (forall pid :: pid in t.procs ==> !Calling(t.procs[pid], k)) ==>
              (r, k) !in t.local && (LockReturned(k) in A ==> Free(Slot(t, k), t.now))
  {
    hide IsRun, LeaseHeldNow, Free, LocalHeld, Critical, Calling;
    StartsFree(k);
    RunKeepsLocalHeld(c, A, Init(), es, t);
    if (r, k) in t.local {
      HolderIsCalling(t, r, k, t.local[(r, k)]);
    }
    if LockReturned(k) in A {
      RunKeepsLease(c, A, Init(), es, t, k);
      if !Free(Slot(t, k), t.now) {
        LeaseIsInside(t, k);
      }
    }
  }
}
