/**
  * The reverse index as the reaper's only trail: which sandboxes stay on it, and
  * which never were.
  */
module Breadcrumb {
  import opened Options
  import opened Routing
  import opened Protocol
  import opened Moves
  import opened Isolation
  import opened WriteOrder

  /** A process about the key that drops an index entry does so for a sandbox that is gone. */
  predicate DropsDead(st: State, k: Key, p: Proc) {
    p.key == k && (p.pc.RDrop? || p.pc.EUnbind? || p.pc.EDrop?) ==> p.sid !in st.live
  }

  /** The sandboxes of the key that are to be found in the index. */
  ghost predicate Indexed(st: State, k: Key) {
    forall s :: s in st.announced && s in st.live && Owned(st, s, k) ==> s in st.index
  }

  ghost predicate Trail(c: Config, st: State, k: Key) {
    Ordered(c, st) && Indexed(st, k) && forall pid :: pid in st.procs ==> DropsDead(st, k, st.procs[pid])
  }

  /** How a process comes to drop an index entry: by way of a delete, whatever became of it. */
  predicate DropShape(p: Proc, m: Move) {
    && (m.next.pc.RDrop? ==> p.pc.RDelete?)
    && (m.next.pc.EUnbind? ==> p.pc.EDelete?)
    && (m.next.pc.EDrop? ==> p.pc.EUnbind?)
    && (m.next.pc.RDrop? || m.next.pc.EUnbind? || m.next.pc.EDrop? ==> m.next.sid == p.sid && m.next.key == p.key)
  }

  lemma EndDrops(p: Proc, o: Obs)
    requires EndPc(p.pc)
    ensures DropShape(p, AdvanceEnd(p, o))
  {
  }

  lemma ReapDrops(st: State, p: Proc, o: Obs)
    requires ReapPc(p.pc) && Enabled(st, p, o) && !o.Cancelled?
    ensures DropShape(p, AdvanceReap(p, o))
    ensures AdvanceReap(p, o).next.pc.RDrop? ==> AdvanceReap(p, o).fx == Delete(p.sid) || p.sid !in st.live
  {
  }

  lemma CancelDrops(p: Proc)
    ensures DropShape(p, Move(Unwound(p), Nothing)) && !Unwound(p).pc.RDrop?
  {
  }

  lemma CommitLive(c: Config, st: State, pid: Pid, rid: Rid, f: Fx)
    ensures var t := Commit(c, st, pid, rid, f);
            && t.strays == st.strays && t.procs == st.procs
            && t.live == if f.Provision? then st.live + {f.sid} else if f.Delete? then st.live - {f.sid} else st.live
  {
  }

  /** The process that moves: what it is now to drop is gone. */
  lemma OwnDropsDead(c: Config, st: State, pid: Pid, o: Obs, k: Key)
    requires pid in st.procs && Enabled(st, st.procs[pid], o) && DropsDead(st, k, st.procs[pid])
    requires Respects(c, CleanEnd(k), st, Do(pid, o))
    ensures var m := Advance(c, st.now, st.procs[pid], o); DropsDead(After(c, st, pid, m), k, m.next)
  {
    var p := st.procs[pid];
    var m := Advance(c, st.now, p, o);
    AdvanceShape(c, st, p, o);
    CommitLive(c, st, pid, m.next.rid, m.fx);
    if o.Cancelled? {
      CancelDrops(p);
    } else if EndPc(p.pc) {
      EndDrops(p, o);
    } else if ReapPc(p.pc) {
      ReapDrops(st, p, o);
    }
  }

  /** Only a creation makes a sandbox live, and a created sandbox is new. */
  lemma CommitTrail(c: Config, st: State, pid: Pid, rid: Rid, f: Fx, k: Key)
    requires StoreOrdered(st) && FxOwned(st, f) && Indexed(st, k)
    requires f.PutMeta? && f.key == k ==> f.landed
    requires f.DropMeta? && Owned(st, f.sid, k) ==> f.sid !in st.live
    ensures Indexed(Commit(c, st, pid, rid, f), k)
    ensures forall s :: s in Commit(c, st, pid, rid, f).live ==> s in st.live || s !in st.owner
  {
  }

  lemma OthersDropDead(st: State, t: State, k: Key, q: Pid)
    requires Inv(st) && q in st.procs && DropsDead(st, k, st.procs[q])
    requires forall s :: s in t.live ==> s in st.live || s !in st.owner
    ensures DropsDead(t, k, st.procs[q])
  {
  }

  lemma MoveKeepsTrail(c: Config, st: State, pid: Pid, o: Obs, m: Move, k: Key)
    requires Trail(c, st, k) && pid in st.procs && Shape(st, st.procs[pid], o, m) && FxOwned(st, m.fx)
    requires m.fx.PutMeta? && m.fx.key == k ==> Landed(o)
    requires DropsDead(After(c, st, pid, m), k, m.next)
    ensures var t := After(c, st, pid, m);
            Indexed(t, k) && forall q :: q in t.procs ==> DropsDead(t, k, t.procs[q])
  {
    var t := After(c, st, pid, m);
    assert DropsDead(st, k, st.procs[pid]);
    CommitTrail(c, st, pid, m.next.rid, m.fx, k);
    CommitLive(c, st, pid, m.next.rid, m.fx);
    forall q | q in st.procs && q != pid
      ensures DropsDead(t, k, st.procs[q])
    {
      OthersDropDead(st, t, k, q);
    }
  }

  lemma IndexesWhenAnswered(c: Config, st: State, p: Proc, o: Obs)
    requires Enabled(st, p, o)
    ensures Advance(c, st.now, p, o).fx.PutMeta? ==> p.pc.PutIndex? && (Landed(o) || o.Lost?)
  {
    AdvanceShape(c, st, p, o);
  }

  lemma DoKeepsTrail(c: Config, st: State, pid: Pid, o: Obs, k: Key)
    requires Trail(c, st, k) && Can(st, Do(pid, o))
    requires Respects(c, IndexLands(k), st, Do(pid, o)) && Respects(c, CleanEnd(k), st, Do(pid, o))
    ensures var t := After(c, st, pid, Advance(c, st.now, st.procs[pid], o));
            Indexed(t, k) && forall q :: q in t.procs ==> DropsDead(t, k, t.procs[q])
  {
    AdvanceShape(c, st, st.procs[pid], o);
    AdvanceOwned(c, st, pid, o);
    assert DropsDead(st, k, st.procs[pid]);
    OwnDropsDead(c, st, pid, o, k);
    IndexesWhenAnswered(c, st, st.procs[pid], o);
    MoveKeepsTrail(c, st, pid, o, Advance(c, st.now, st.procs[pid], o), k);
  }

  lemma EnvironmentKeepsTrail(c: Config, st: State, e: Event, k: Key)
    requires Trail(c, st, k) && Can(st, e) && !e.Do? && Respects(c, IndexLands(k), st, e)
    ensures var t := Apply(c, st, e);
            Indexed(t, k) && forall q :: q in t.procs ==> DropsDead(t, k, t.procs[q])
  {
    forall q | q in Apply(c, st, e).procs
      ensures DropsDead(Apply(c, st, e), k, Apply(c, st, e).procs[q])
    {
      ProcsAfter(c, st, e, q);
    }
  }

  lemma StepKeepsTrail(c: Config, st: State, e: Event, k: Key)
    requires Trail(c, st, k) && Can(st, e) && Respects(c, IndexLands(k), st, e) && Respects(c, CleanEnd(k), st, e)
    ensures Trail(c, Apply(c, st, e), k)
  {
    hide Ordered, Indexed, DropsDead;
    StepKeepsOrdered(c, st, e);
    if e.Do? {
      DoKeepsTrail(c, st, e.pid, e.obs, k);
    } else {
      EnvironmentKeepsTrail(c, st, e, k);
    }
  }

  lemma {:induction false} RunKeepsTrail(c: Config, A: set<Assumption>, st: State, es: seq<Event>, t: State, k: Key)
    requires Trail(c, st, k) && IsRun(c, A, st, es, t) && {IndexLands(k), CleanEnd(k)} <= A
    ensures Trail(c, t, k)
    decreases |es|
  {
    hide Apply, Trail, Respects;
    if es != [] {
      StepKeepsTrail(c, st, es[0], k);
      RunKeepsTrail(c, A, Apply(c, st, es[0]), es[1..], t, k);
    }
  }

  lemma StartsTrail(c: Config, k: Key)
    ensures Trail(c, Init(), k)
  {
  }

  /**
    * No lost breadcrumb: while index entries of the key land and are not lost, and an end of its
    * session cleans up only after sandboxes that are gone, every live sandbox of the key whose creator
    * is past the index write is indexed under the key, after a rollback as much as before, and
    * nobody is about to drop the entry.
    */
  lemma NoLostBreadcrumb(c: Config, A: set<Assumption>, es: seq<Event>, t: State, k: Key, s: Sid)
    requires IsRun(c, A, Init(), es, t) && {IndexLands(k), CleanEnd(k)} <= A
    requires s in t.live && s in t.announced && Owned(t, s, k)
    ensures s in t.index && t.index[s] == k
    ensures forall pid :: pid in t.procs && (t.procs[pid].pc.RDrop? || t.procs[pid].pc.EDrop?) ==> t.procs[pid].sid != s
  {
    StartsTrail(c, k);
    RunKeepsTrail(c, A, Init(), es, t, k);
    assert forall pid :: pid in t.procs ==> DropsDead(t, k, t.procs[pid]);
  }

  // ------------------------------------------------- what a failed or cancelled delete does

  /** The delete of an `end_session` ends, for whatever reason, and the sandbox lives on. */
  predicate DeletesInVain(st: State, e: Event, s: Sid) {
    && e.Do? && e.pid in st.procs && st.procs[e.pid].pc.EDelete? && st.procs[e.pid].sid == s
    && (e.obs == Error(false) || e.obs == Cancelled(false))
  }

  /** A process that has come to clean up after a sandbox. */
  predicate CleansUp(st: State, pid: Pid, s: Sid) {
    pid in st.procs && (st.procs[pid].pc.EUnbind? || st.procs[pid].pc.EDrop? || st.procs[pid].pc.RDrop?) && st.procs[pid].sid == s
  }

  lemma CleansUpAfter(c: Config, st: State, pid: Pid, o: Obs, s: Sid)
    requires pid in st.procs && Enabled(st, st.procs[pid], o)
    requires !CleansUp(st, pid, s) && s in Apply(c, st, Do(pid, o)).live && Inv(st)
    ensures CleansUp(Apply(c, st, Do(pid, o)), pid, s) ==> DeletesInVain(st, Do(pid, o), s)
  {
    var p := st.procs[pid];
    var m := Advance(c, st.now, p, o);
    AdvanceShape(c, st, p, o);
    CommitLive(c, st, pid, m.next.rid, m.fx);
    if o.Cancelled? {
      CancelDrops(p);
    } else if EndPc(p.pc) {
      EndDrops(p, o);
    } else if ReapPc(p.pc) {
      ReapDrops(st, p, o);
    }
  }

  lemma VainDeleteCleansUp(c: Config, st: State, e: Event, s: Sid)
    requires Can(st, e) && DeletesInVain(st, e, s)
    ensures CleansUp(Apply(c, st, e), e.pid, s) && Apply(c, st, e).live == st.live
  {
  }

  /**
    * The one way to lose the trail of a live sandbox: a process comes to clean up after a
    * sandbox that lives exactly when it is an `end_session` whose delete raised or was
    * cancelled in vain.
    */
  lemma CleansUpLiveIff(c: Config, st: State, e: Event, pid: Pid, s: Sid)
    requires Inv(st) && Can(st, e) && !CleansUp(st, pid, s) && s in st.live && s in Apply(c, st, e).live
    ensures CleansUp(Apply(c, st, e), pid, s) <==> e.Do? && e.pid == pid && DeletesInVain(st, e, s)
  {
    if e.Do? && DeletesInVain(st, e, s) {
      VainDeleteCleansUp(c, st, e, s);
    }
    if e.Do? && e.pid == pid {
      CleansUpAfter(c, st, pid, e.obs, s);
    } else if CleansUp(Apply(c, st, e), pid, s) {
      ProcsAfter(c, st, e, pid);
    }
  }

  // ------------------------------------------------------------------------- strays

  lemma MoveKeepsStray(c: Config, st: State, pid: Pid, p: Proc, o: Obs, m: Move, s: Sid)
    requires StoreOrdered(st) && Issued(st, p) && FxShape(p, o, m.next, m.fx) && s in st.strays && s in st.live
    ensures s in After(c, st, pid, m).strays && s in After(c, st, pid, m).live
  {
    CommitLive(c, st, pid, m.next.rid, m.fx);
  }

  lemma StepKeepsStray(c: Config, st: State, e: Event, s: Sid)
    requires Ordered(c, st) && Can(st, e) && s in st.strays && s in st.live && e != Vanish(s)
    ensures s in Apply(c, st, e).strays && s in Apply(c, st, e).live
  {
    if e.Do? {
      var p := st.procs[e.pid];
      assert Issued(st, p);
      AdvanceShape(c, st, p, e.obs);
      MoveKeepsStray(c, st, e.pid, p, e.obs, Advance(c, st.now, p, e.obs), s);
    }
  }

  lemma {:induction false} RunKeepsStray(c: Config, A: set<Assumption>, st: State, es: seq<Event>, t: State, s: Sid)
    requires Ordered(c, st) && IsRun(c, A, st, es, t) && s in st.strays && s in st.live && Vanish(s) !in es
    ensures Ordered(c, t) && s in t.strays && s in t.live
    decreases |es|
  {
    hide Apply;
    if es != [] {
      StepKeepsOrdered(c, st, es[0]);
      StepKeepsStray(c, st, es[0], s);
      RunKeepsStray(c, A, Apply(c, st, es[0]), es[1..], t, s);
    }
  }

  /**
    * The limit of the trail: a sandbox the platform finishes after its creator timed out
    * is never indexed, never bound and never deleted by a reaper or an `end_session`;
    * it lives until the platform removes it by itself.
    */
  lemma StrayIsNeverReclaimed(c: Config, A: set<Assumption>, before: seq<Event>, st: State, after: seq<Event>, t: State, s: Sid)
    requires IsRun(c, A, Init(), before, st) && IsRun(c, A, st, after, t)
    requires s in st.strays && s in st.live && Vanish(s) !in after
    ensures s in t.live && s !in t.index && (forall k :: Bound(t, k) != Some(s))
    ensures forall pid :: pid in t.procs && Holding(t.procs[pid]) ==> t.procs[pid].sid != s
  {
    hide IsRun, Ordered;
    StartsOrdered(c);
    RunKeepsOrdered(c, A, Init(), before, st);
    RunKeepsStray(c, A, st, after, t, s);
    StrayIsUnknown(c, t, s);
  }

  lemma StrayIsUnknown(c: Config, t: State, s: Sid)
    requires Ordered(c, t) && s in t.strays
    ensures s !in t.index && (forall k :: Bound(t, k) != Some(s))
    ensures forall pid :: pid in t.procs && Holding(t.procs[pid]) ==> t.procs[pid].sid != s
  {
    assert forall pid :: pid in t.procs ==> Issued(t, t.procs[pid]);
  }
}
