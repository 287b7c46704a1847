/**
  * What one error-free pass of the reaper over a group achieves for a key nobody is
  * calling on, with everything else still running.
  */
module Reaping {
  import opened Options
  import opened Routing
  import opened Protocol
  import opened Moves
  import opened Isolation
  import opened WriteOrder
  import opened SessionWindow
  import opened Breadcrumb

  ghost predicate CallsRest(st: State, k: Key) {
    forall pid :: pid in st.procs && st.procs[pid].key == k && CallPc(st.procs[pid].pc) ==> st.procs[pid].pc.Gone?
  }

  /** A sandbox the reaper can find for the key. */
  predicate Findable(st: State, k: Key, s: Sid) {
    s in st.live && s in st.index && st.index[s] == k
  }

  /** The pass has dealt with every sandbox of the key but `b` and those it has yet to visit. */
  ghost predicate Covered(st: State, k: Key, b: Option<Sid>, todo: seq<Sid>) {
    forall s: Sid :: Findable(st, k, s) ==> b == Some(s) || s in todo
  }

  predicate Visiting(p: Proc) {
    && (p.pc.RPeek? || p.pc.RDelete? || p.pc.RDrop? ==> p.todo != [] && p.todo[0] == p.sid)
    && (p.pc.Gone? || p.pc.RList? ==> p.todo == [])
  }

  ghost predicate Passing(c: Config, st: State, r: Pid, k: Key, b: Option<Sid>) {
    && Ordered(c, st) && CallsRest(st, k) && (Bound(st, k) == None || Bound(st, k) == b)
    && r in st.procs && (ReapPc(st.procs[r].pc) || st.procs[r].pc.Gone?)
    && Visiting(st.procs[r]) && DropsDead(st, st.procs[r].key, st.procs[r])
    && (if st.procs[r].pc.RList? then st.procs[r].key.group == k.group else Covered(st, k, b, st.procs[r].todo))
  }

  lemma StepKeepsRest(c: Config, st: State, e: Event, k: Key)
    requires CallsRest(st, k) && Can(st, e) && Respects(c, Quiet(k), st, e)
    ensures CallsRest(Apply(c, st, e), k)
  {
    forall pid | pid in Apply(c, st, e).procs && Apply(c, st, e).procs[pid].key == k && CallPc(Apply(c, st, e).procs[pid].pc)
      ensures Apply(c, st, e).procs[pid].pc.Gone?
    {
      ProcsAfter(c, st, e, pid);
      if e.Do? {
        AdvanceShape(c, st, st.procs[e.pid], e.obs);
      }
    }
  }

  /** With no call on the key, its binding can only go. */
  lemma RestKeepsForward(c: Config, st: State, e: Event, k: Key)
    requires CallsRest(st, k) && Can(st, e)
    ensures k in Apply(c, st, e).forward ==> k in st.forward && Apply(c, st, e).forward[k] == st.forward[k]
    ensures Apply(c, st, e).now >= st.now
  {
    if e.Do? {
      var p := st.procs[e.pid];
      AdvanceShape(c, st, p, e.obs);
      CommitForward(c, st, e.pid, Advance(c, st.now, p, e.obs).next.rid, Advance(c, st.now, p, e.obs).fx, k);
    }
  }

  lemma CommitFinds(c: Config, st: State, pid: Pid, rid: Rid, f: Fx, k: Key)
    requires StoreOrdered(st) && FxOwned(st, f) && (f.PutMeta? ==> f.key != k)
    ensures forall s :: Findable(Commit(c, st, pid, rid, f), k, s) ==> Findable(st, k, s)
  {
  }

  /** With no call on the key, no sandbox of the key becomes findable. */
  lemma RestKeepsFindable(c: Config, st: State, e: Event, k: Key)
    requires Ordered(c, st) && CallsRest(st, k) && Can(st, e)
    ensures forall s :: Findable(Apply(c, st, e), k, s) ==> Findable(st, k, s)
  {
    if e.Do? {
      var p := st.procs[e.pid];
      AdvanceShape(c, st, p, e.obs);
      ShapeOwned(st, e.pid, e.obs, Advance(c, st.now, p, e.obs));
      CommitFinds(c, st, e.pid, Advance(c, st.now, p, e.obs).next.rid, Advance(c, st.now, p, e.obs).fx, k);
    }
  }

  /** The list that the platform gives has every sandbox of the group. */
  lemma ListCovers(st: State, p: Proc, o: Obs, k: Key, b: Option<Sid>)
    requires Inv(st) && p.pc.RList? && p.key.group == k.group && p.todo == [] && Enabled(st, p, o)
    ensures Covered(st, k, b, AdvanceReap(p, o).next.todo) || o.Error? || o.Cancelled?
  {
  }

  /** How one step of the reaper moves its list on. */
  lemma VisitCovers(st: State, p: Proc, o: Obs, k: Key, b: Option<Sid>)
    requires Inv(st) && (Bound(st, k) == None || Bound(st, k) == b) && ReapPc(p.pc) && !p.pc.RList?
    requires Visiting(p) && DropsDead(st, p.key, p) && Covered(st, k, b, p.todo)
    requires Enabled(st, p, o) && !o.Error? && !o.Lost? && !o.Cancelled?
    requires p.pc.RPeek? ==> Owned(st, p.sid, p.key)
    ensures Covered(st, k, b, AdvanceReap(p, o).next.todo)
  {
    hide Listing;
  }

  lemma ReaperCovers(st: State, p: Proc, o: Obs, k: Key, b: Option<Sid>)
    requires Inv(st) && (Bound(st, k) == None || Bound(st, k) == b) && ReapPc(p.pc)
    requires Visiting(p) && DropsDead(st, p.key, p)
    requires if p.pc.RList? then p.key.group == k.group && p.todo == [] else Covered(st, k, b, p.todo)
    requires Enabled(st, p, o) && !o.Error? && !o.Lost? && !o.Cancelled?
    requires p.pc.RPeek? ==> Owned(st, p.sid, p.key)
    ensures var n := AdvanceReap(p, o).next;
            (ReapPc(n.pc) || n.pc.Gone?) && !n.pc.RList? && Visiting(n) && Covered(st, k, b, n.todo)
  {
    hide Inv, Covered, DropsDead, Listing;
    if p.pc.RList? {
      ListCovers(st, p, o, k, b);
    } else {
      VisitCovers(st, p, o, k, b);
    }
  }

  /** The reaper's own step. */
  lemma OwnKeepsPassing(c: Config, st: State, r: Pid, o: Obs, k: Key, b: Option<Sid>)
    requires Passing(c, st, r, k, b) && Can(st, Do(r, o)) && !o.Error? && !o.Lost? && !o.Cancelled?
    ensures var t := Apply(c, st, Do(r, o));
            && r in t.procs && (ReapPc(t.procs[r].pc) || t.procs[r].pc.Gone?)
            && Visiting(t.procs[r]) && DropsDead(t, t.procs[r].key, t.procs[r])
            && !t.procs[r].pc.RList? && Covered(st, k, b, t.procs[r].todo)
  {
    hide AdvanceReap, Commit, ProcsOrdered, StoreOrdered, Dated, CallsRest;
    assert Holding(st.procs[r]) ==> Owned(st, st.procs[r].sid, st.procs[r].key);
    ReaperCovers(st, st.procs[r], o, k, b);
    OwnDropsDead(c, st, r, o, Advance(c, st.now, st.procs[r], o).next.key);
  }

  /** Anybody else's step makes no sandbox live that was there before. */
  lemma OthersKeepPassing(c: Config, st: State, pid: Pid, o: Obs, r: Pid, k: Key, b: Option<Sid>)
    requires Passing(c, st, r, k, b) && Can(st, Do(pid, o)) && pid != r
    ensures var t := Apply(c, st, Do(pid, o));
            r in t.procs && t.procs[r] == st.procs[r] && DropsDead(t, t.procs[r].key, t.procs[r])
  {
    hide Advance, Enabled;
    var m := Advance(c, st.now, st.procs[pid], o);
    AdvanceShape(c, st, st.procs[pid], o);
    ShapeOwned(st, pid, o, m);
    CommitLive(c, st, pid, m.next.rid, m.fx);
  }

  lemma DoKeepsPassing(c: Config, st: State, pid: Pid, o: Obs, r: Pid, k: Key, b: Option<Sid>)
    requires Passing(c, st, r, k, b) && Can(st, Do(pid, o)) && (pid == r ==> !o.Error? && !o.Lost? && !o.Cancelled?)
    ensures var t := Apply(c, st, Do(pid, o));
            && r in t.procs && (ReapPc(t.procs[r].pc) || t.procs[r].pc.Gone?)
            && Visiting(t.procs[r]) && DropsDead(t, t.procs[r].key, t.procs[r])
            && (if t.procs[r].pc.RList? then t.procs[r].key.group == k.group else Covered(st, k, b, t.procs[r].todo))
  {
    hide Apply, Ordered, CallsRest, DropsDead;
    if pid == r {
      OwnKeepsPassing(c, st, r, o, k, b);
    } else {
      OthersKeepPassing(c, st, pid, o, r, k, b);
    }
  }

  /** Nothing but its own steps moves the reaper, and no sandbox of the key becomes findable. */
  lemma EnvironmentKeepsPassing(c: Config, st: State, e: Event, r: Pid, k: Key, b: Option<Sid>)
    requires Passing(c, st, r, k, b) && Can(st, e) && !e.Do? && Respects(c, CleanPass(r), st, e)
    requires forall s: Sid :: Findable(Apply(c, st, e), k, s) ==> Findable(st, k, s)
    ensures var t := Apply(c, st, e);
            && r in t.procs && t.procs[r] == st.procs[r] && DropsDead(t, t.procs[r].key, t.procs[r])
            && (!t.procs[r].pc.RList? ==> Covered(t, k, b, t.procs[r].todo))
  {
    hide Advance, Commit;
  }

  lemma StepKeepsPassing(c: Config, st: State, e: Event, r: Pid, k: Key, b: Option<Sid>)
    requires Passing(c, st, r, k, b) && Can(st, e) && Respects(c, Quiet(k), st, e) && Respects(c, CleanPass(r), st, e)
    ensures Passing(c, Apply(c, st, e), r, k, b)
  {
    hide Apply, Ordered, CallsRest, DropsDead;
    assert e.Do? ==> e == Do(e.pid, e.obs);
    StepKeepsOrdered(c, st, e);
    StepKeepsRest(c, st, e, k);
    RestKeepsForward(c, st, e, k);
    RestKeepsFindable(c, st, e, k);
    if e.Do? {
      DoKeepsPassing(c, st, e.pid, e.obs, r, k, b);
    } else {
      EnvironmentKeepsPassing(c, st, e, r, k, b);
    }
  }

  lemma {:induction false} RunKeepsPassing(c: Config, A: set<Assumption>, st: State, es: seq<Event>, t: State, r: Pid, k: Key, b: Option<Sid>)
    requires Passing(c, st, r, k, b) && IsRun(c, A, st, es, t) && {Quiet(k), CleanPass(r)} <= A
    ensures Passing(c, t, r, k, b)
    decreases |es|
  {
    hide Apply, Passing;
    if es != [] {
      StepKeepsPassing(c, st, es[0], r, k, b);
      RunKeepsPassing(c, A, Apply(c, st, es[0]), es[1..], t, r, k, b);
    }
  }

  lemma PassCovers(c: Config, A: set<Assumption>, st: State, r: Pid, pass: seq<Event>, t: State, k: Key)
    requires Ordered(c, st) && CallsRest(st, k)
    requires r in st.procs && st.procs[r].pc.RList? && st.procs[r].todo == [] && st.procs[r].key.group == k.group
    requires IsRun(c, A, st, pass, t) && {Quiet(k), CleanPass(r)} <= A && r in t.procs && t.procs[r].pc.Gone?
    ensures forall s: Sid :: Findable(t, k, s) ==> Bound(st, k) == Some(s)
  {
    RunKeepsPassing(c, A, st, pass, t, r, k, Bound(st, k));
  }

  /**
    * The reaper bounds double creation. From any reachable state, however many sandboxes
    * degraded locks or lost writes left for the key, a pass over the key's group that
    * meets no error, while nobody calls on the key, leaves at most one sandbox of the key
    * live and indexed, namely the one the key was bound to when the pass began.
    */
  lemma PassLeavesAtMostOne(c: Config, A: set<Assumption>, before: seq<Event>, st: State, r: Pid, pass: seq<Event>, t: State, k: Key)
    requires IsRun(c, {}, Init(), before, st) && CallsRest(st, k)
    requires r in st.procs && st.procs[r].pc.RList? && st.procs[r].todo == [] && st.procs[r].key.group == k.group
    requires IsRun(c, A, st, pass, t) && {Quiet(k), CleanPass(r)} <= A
    requires r in t.procs && t.procs[r].pc.Gone?
    ensures forall s: Sid :: Findable(t, k, s) ==> Bound(st, k) == Some(s)
  {
    StartsOrdered(c);
    RunKeepsOrdered(c, {}, Init(), before, st);
    PassCovers(c, A, st, r, pass, t, k);
  }

  // ----------------------------------------------------------------- idle reclamation

  lemma {:induction false} RestLapses(c: Config, A: set<Assumption>, st: State, es: seq<Event>, t: State, k: Key)
    requires CallsRest(st, k) && IsRun(c, A, st, es, t) && Quiet(k) in A
    ensures CallsRest(t, k) && t.now >= st.now
    ensures k in t.forward ==> k in st.forward && t.forward[k] == st.forward[k]
    decreases |es|
  {
    if es != [] {
      StepKeepsRest(c, st, es[0], k);
      RestKeepsForward(c, st, es[0], k);
      RestLapses(c, A, Apply(c, st, es[0]), es[1..], t, k);
    }
  }

  lemma IdleLapses(c: Config, B: set<Assumption>, last: State, idle: seq<Event>, st: State, k: Key)
    requires Ordered(c, last) && CallsRest(last, k) && IsRun(c, B, last, idle, st) && Quiet(k) in B
    requires st.now >= last.now + c.sessionTtl
    ensures Ordered(c, st) && CallsRest(st, k) && Bound(st, k) == None
  {
    RunKeepsOrdered(c, B, last, idle, st);
    RestLapses(c, B, last, idle, st, k);
  }

  /**
    * Idle reclamation: if nobody calls on the key from some time on, a pass over its group
    * that begins at least a session window later and meets no error leaves no sandbox of
    * the key live and indexed.
    */
  lemma IdleIsReclaimed(c: Config, A: set<Assumption>, B: set<Assumption>, before: seq<Event>, last: State, idle: seq<Event>, st: State,
                        r: Pid, pass: seq<Event>, t: State, k: Key)
    requires IsRun(c, {}, Init(), before, last) && CallsRest(last, k)
    requires IsRun(c, B, last, idle, st) && Quiet(k) in B && st.now >= last.now + c.sessionTtl
    requires r in st.procs && st.procs[r].pc.RList? && st.procs[r].todo == [] && st.procs[r].key.group == k.group
    requires IsRun(c, A, st, pass, t) && {Quiet(k), CleanPass(r)} <= A
    requires r in t.procs && t.procs[r].pc.Gone?
    ensures forall s: Sid :: !Findable(t, k, s)
  {
    StartsOrdered(c);
    RunKeepsOrdered(c, {}, Init(), before, last);
    IdleLapses(c, B, last, idle, st, k);
    PassCovers(c, A, st, r, pass, t, k);
  }
}
