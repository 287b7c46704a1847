/**
  * The reaper's check-then-delete. It reads the index, peeks at the routing key and
  * deletes in three separate steps, with everything else running in between.
  */
module ReaperSafety {
  import opened Options
  import opened Routing
  import opened Protocol
  import opened Isolation
  import opened WriteOrder
  import opened Moves

  /** The routing key of the sandbox's owner does not lead to it. */
  predicate Unbound(st: State, s: Sid) {
    s in st.owner && Bound(st, st.owner[s]) != Some(s)
  }

  lemma CommitLeavesUnbound(c: Config, st: State, pid: Pid, rid: Rid, f: Fx, s: Sid)
    requires Inv(st) && FxOwned(st, f) && Unbound(st, s)
    requires f.BindTo? ==> f.sid != s || (f.landed ==> Bound(st, f.key) == Some(s))
    ensures Unbound(Commit(c, st, pid, rid, f), s)
  {
  }

  lemma DoLeavesUnbound(c: Config, st: State, pid: Pid, o: Obs, s: Sid)
    requires Ordered(c, st) && Can(st, Do(pid, o)) && s in st.issued && Unbound(st, s)
    requires Respects(c, AtomicSlide(st.owner[s]), st, Do(pid, o))
    ensures s in Apply(c, st, Do(pid, o)).issued && Unbound(Apply(c, st, Do(pid, o)), s)
  {
    hide Advance, Enabled, Commit, Dated, StoreOrdered;
    var p := st.procs[pid];
    var m := Advance(c, st.now, p, o);
    AdvanceShape(c, st, p, o);
    ShapeOwned(st, pid, o, m);
    assert m.fx.BindTo? && p.pc.PutForward? ==> Issued(st, p);
    CommitIssues(c, st, pid, m.next.rid, m.fx);
    CommitLeavesUnbound(c, st, pid, m.next.rid, m.fx, s);
  }

  lemma EnvironmentLeavesUnbound(c: Config, st: State, e: Event, s: Sid)
    requires Can(st, e) && !e.Do? && s in st.issued && Unbound(st, s)
    ensures s in Apply(c, st, e).issued && Unbound(Apply(c, st, e), s)
  {
    hide Apply, Can;
    EnvironmentFrame(c, st, e);
  }

  /** Once a sandbox is past its first binding, being unbound is permanent. */
  lemma UnboundStays(c: Config, st: State, e: Event, s: Sid)
    requires Ordered(c, st) && Can(st, e) && s in st.issued && Unbound(st, s)
    requires Respects(c, AtomicSlide(st.owner[s]), st, e)
    ensures s in Apply(c, st, e).issued && Unbound(Apply(c, st, e), s)
  {
    hide Apply, Unbound;
    if e.Do? {
      DoLeavesUnbound(c, st, e.pid, e.obs, s);
    } else {
      EnvironmentLeavesUnbound(c, st, e, s);
    }
  }

  /** The second half of a sliding read writes back what the first half read. */
  predicate WritesBack(st: State, e: Event, s: Sid) {
    e.Do? && e.pid in st.procs && st.procs[e.pid].pc.Refresh? && st.procs[e.pid].sid == s && Landed(e.obs)
  }

  /**
    * The one way back: an unbound sandbox is bound again exactly when a sliding read that
    * found it before it lapsed or was unbound now writes it back.
    */
  lemma RevivedIff(c: Config, st: State, e: Event, s: Sid)
    requires Ordered(c, st) && Can(st, e) && s in st.issued && Unbound(st, s) && c.sessionTtl > 0
    ensures Unbound(Apply(c, st, e), s) <==> !WritesBack(st, e, s)
  {
    if e.Do? && st.procs[e.pid].pc.Refresh? && Landed(e.obs) {
      hide Unbound;
      RefreshLands(c, st, e.pid, e.obs, s);
    } else {
      hide Apply, Unbound;
      UnboundStays(c, st, e, s);
    }
  }

  lemma RefreshFx(c: Config, now: nat, p: Proc, o: Obs)
    requires p.pc.Refresh? && Landed(o)
    ensures Advance(c, now, p, o).fx == BindTo(p.key, p.sid, true)
  {
  }

  lemma CommitBinds(c: Config, st: State, pid: Pid, rid: Rid, k: Key, s: Sid)
    requires Owned(st, s, k) && c.sessionTtl > 0
    ensures !Unbound(Commit(c, st, pid, rid, BindTo(k, s, true)), s)
  {
  }

  /** A write-back binds what it writes back, and no other sandbox. */
  lemma RefreshLands(c: Config, st: State, pid: Pid, o: Obs, s: Sid)
    requires Inv(st) && Can(st, Do(pid, o)) && st.procs[pid].pc.Refresh? && Landed(o)
    requires Unbound(st, s) && c.sessionTtl > 0
    ensures Unbound(Apply(c, st, Do(pid, o)), s) <==> st.procs[pid].sid != s
  {
    var p := st.procs[pid];
    var m := Advance(c, st.now, p, o);
    assert Owned(st, p.sid, p.key);
    RefreshFx(c, st.now, p, o);
    hide Advance, Enabled, Commit;
    if p.sid == s {
      CommitBinds(c, st, pid, m.next.rid, p.key, s);
    } else {
      CommitLeavesUnbound(c, st, pid, m.next.rid, m.fx, s);
    }
  }

  /** A reaper about to delete a sandbox of the key has a sandbox that is unbound. */
  ghost predicate Peeked(st: State, k: Key) {
    forall pid :: pid in st.procs && st.procs[pid].pc.RDelete? && st.procs[pid].key == k ==> Unbound(st, st.procs[pid].sid)
  }

  lemma PeekFindsUnbound(st: State, p: Proc, o: Obs)
    requires Enabled(st, p, o) && ReapPc(p.pc) && !o.Cancelled?
    ensures var n := AdvanceReap(p, o).next;
            n.pc.RDelete? ==> p.pc.RPeek? && n.key == p.key && n.sid == p.sid && Bound(st, p.key) != Some(p.sid)
  {
  }

  lemma OnlyPeekDooms(c: Config, st: State, pid: Pid, o: Obs)
    requires Inv(st) && pid in st.procs && Enabled(st, st.procs[pid], o)
    ensures var n := Advance(c, st.now, st.procs[pid], o).next;
            n.pc.RDelete? ==> ReapPc(st.procs[pid].pc) && Unbound(st, n.sid) && n.sid == st.procs[pid].sid && st.procs[pid].pc.RPeek?
  {
    AdvanceShape(c, st, st.procs[pid], o);
    if ReapPc(st.procs[pid].pc) && !o.Cancelled? {
      PeekFindsUnbound(st, st.procs[pid], o);
    }
  }

  lemma StepKeepsPeeked(c: Config, st: State, e: Event, k: Key)
    requires Ordered(c, st) && Peeked(st, k) && Can(st, e) && Respects(c, AtomicSlide(k), st, e)
    ensures Peeked(Apply(c, st, e), k)
  {
    var t := Apply(c, st, e);
    forall pid | pid in t.procs && t.procs[pid].pc.RDelete? && t.procs[pid].key == k
      ensures Unbound(t, t.procs[pid].sid)
    {
      ReaperBefore(c, st, e, pid);
      assert Issued(st, st.procs[pid]);
      UnboundStays(c, st, e, t.procs[pid].sid);
    }
  }

  /** A reaper that is about to delete was before, or has just peeked. */
  lemma ReaperBefore(c: Config, st: State, e: Event, pid: Pid)
    requires Ordered(c, st) && Can(st, e) && pid in Apply(c, st, e).procs && Apply(c, st, e).procs[pid].pc.RDelete?
    ensures var q := Apply(c, st, e).procs[pid];
            && pid in st.procs && st.procs[pid].sid == q.sid && Owned(st, q.sid, q.key) && Holding(st.procs[pid])
            && !st.procs[pid].pc.PutForward?
            && (st.procs[pid] == q || Unbound(st, q.sid))
  {
    ProcsAfter(c, st, e, pid);
    if e.Do? && e.pid == pid {
      OnlyPeekDooms(c, st, pid, e.obs);
    }
  }

  // ------------------------------------------------- a reaped sandbox is never handed out

  /** No call that was not running at the start holds the sandbox. */
  ghost predicate Avoided(st: State, running: set<Pid>, s: Sid) {
    forall pid :: pid in st.procs && pid !in running && CallPc(st.procs[pid].pc) && Holding(st.procs[pid])
      ==> st.procs[pid].sid != s
  }

  lemma MoveAvoids(st: State, p: Proc, o: Obs, m: Move, s: Sid)
    requires Inv(st) && Issued(st, p) && Shape(st, p, o, m) && Unbound(st, s)
    requires CallPc(p.pc) && Holding(p) ==> p.sid != s
    ensures CallPc(m.next.pc) && Holding(m.next) ==> m.next.sid != s
  {
  }

  lemma StepKeepsAvoided(c: Config, st: State, e: Event, running: set<Pid>, s: Sid)
    requires Ordered(c, st) && Can(st, e) && Unbound(st, s) && Avoided(st, running, s)
    ensures Avoided(Apply(c, st, e), running, s)
  {
    var t := Apply(c, st, e);
    forall pid | pid in t.procs && pid !in running && CallPc(t.procs[pid].pc) && Holding(t.procs[pid])
      ensures t.procs[pid].sid != s
    {
      ProcsAfter(c, st, e, pid);
      if e.Do? && e.pid == pid {
        assert Issued(st, st.procs[pid]);
        AdvanceShape(c, st, st.procs[pid], e.obs);
        MoveAvoids(st, st.procs[pid], e.obs, Advance(c, st.now, st.procs[pid], e.obs), s);
      }
    }
  }

  lemma {:induction false} RunKeepsAvoided(c: Config, A: set<Assumption>, st: State, es: seq<Event>, t: State, running: set<Pid>, s: Sid)
    requires Ordered(c, st) && IsRun(c, A, st, es, t)
    requires s in st.issued && Unbound(st, s) && Avoided(st, running, s) && AtomicSlide(st.owner[s]) in A
    ensures Avoided(t, running, s) && Unbound(t, s)
    decreases |es|
  {
    hide Apply;
    if es != [] {
      StepKeepsOrdered(c, st, es[0]);
      UnboundStays(c, st, es[0], s);
      StepExtends(c, st, es[0]);
      StepKeepsAvoided(c, st, es[0], running, s);
      RunKeepsAvoided(c, A, Apply(c, st, es[0]), es[1..], t, running, s);
    }
  }

  ghost predicate ReaperSafe(c: Config, st: State, k: Key) {
    Ordered(c, st) && Peeked(st, k)
  }

  lemma {:induction false} RunKeepsReaperSafe(c: Config, A: set<Assumption>, st: State, es: seq<Event>, t: State, k: Key)
    requires ReaperSafe(c, st, k) && IsRun(c, A, st, es, t) && AtomicSlide(k) in A
    ensures ReaperSafe(c, t, k)
    decreases |es|
  {
    hide Apply;
    if es != [] {
      StepKeepsOrdered(c, st, es[0]);
      StepKeepsPeeked(c, st, es[0], k);
      RunKeepsReaperSafe(c, A, Apply(c, st, es[0]), es[1..], t, k);
    }
  }

  /**
    * Check-then-delete: when a reaper has peeked and is about to delete a sandbox, no
    * call that starts from then on ever holds that sandbox, however long the delete
    * takes and whatever else happens, provided the sliding reads of its key are one step.
    */
  lemma ReapedIsNeverHanded(c: Config, A: set<Assumption>, before: seq<Event>, st: State, reaper: Pid,
                            after: seq<Event>, t: State, pid: Pid)
    requires IsRun(c, A, Init(), before, st) && IsRun(c, A, st, after, t)
    requires reaper in st.procs && st.procs[reaper].pc.RDelete? && AtomicSlide(st.procs[reaper].key) in A
    requires pid in t.procs && pid !in st.procs && CallPc(t.procs[pid].pc) && Holding(t.procs[pid])
    ensures t.procs[pid].sid != st.procs[reaper].sid
  {
    hide IsRun;
    var p := st.procs[reaper];
    StartsReaperSafe(c, p.key);
    RunKeepsReaperSafe(c, A, Init(), before, st, p.key);
    assert Issued(st, p) && Owned(st, p.sid, p.key);
    RunKeepsAvoided(c, A, st, after, t, st.procs.Keys, p.sid);
  }

  lemma StartsReaperSafe(c: Config, k: Key)
    ensures ReaperSafe(c, Init(), k)
  {
  }
}
