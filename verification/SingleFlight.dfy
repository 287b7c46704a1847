/**
  * Single flight: within one session window, concurrent calls on a key share one
  * sandbox, on whatever replicas they run.
  */
module SingleFlight {
  import opened Options
  import opened Routing
  import opened Protocol
  import opened Moves
  import opened Isolation
  import opened WriteOrder
  import opened SessionWindow
  import opened Exclusion

  /**
    * The sandboxes of the flight that began in `st0`: the one the key was bound to
    * then, and the ones created for the key since.
    */
  predicate Ours(st0: State, st: State, k: Key, s: Sid) {
    Owned(st, s, k) && s !in st.strays && (s !in st0.owner || Bound(st0, k) == Some(s))
  }

  ghost predicate NoneYet(st0: State, st: State, k: Key) {
    forall s :: !Ours(st0, st, k, s)
  }

  /** A call that started in the flight holds only a sandbox of the flight, and creates only the first. */
  ghost predicate Aboard(st0: State, st: State, k: Key, pid: Pid, p: Proc) {
    p.key == k && CallPc(p.pc) && !(pid in st0.procs && p.pc.Gone?) ==>
      && (Holding(p) ==> Ours(st0, st, k, p.sid))
      && (p.pc.Create? ==> Bound(st, k) == None && NoneYet(st0, st, k))
      && (p.pc.PutForward? ==> Bound(st, k) == None)
      && !p.pc.Reset? && !p.pc.Rollback?
  }

  ghost predicate AllAboard(st0: State, st: State, k: Key) {
    forall pid :: pid in st.procs ==> Aboard(st0, st, k, pid, st.procs[pid])
  }

  predicate Pending(st: State, k: Key, pid: Pid) {
    Creator(st, pid) && st.procs[pid].key == k
  }

  ghost predicate OneSandbox(st0: State, st: State, k: Key) {
    && (forall s, u :: Ours(st0, st, k, s) && Ours(st0, st, k, u) ==> s == u)
    && (Bound(st, k).Some? ==> Ours(st0, st, k, Bound(st, k).value))
    && (Bound(st, k).None? && (forall pid :: !Pending(st, k, pid)) ==> NoneYet(st0, st, k))
  }

  ghost predicate Flight(c: Config, st0: State, st: State, k: Key) {
    && Ordered(c, st) && NoEnders(st, k) && AllAboard(st0, st, k) && OneSandbox(st0, st, k)
    && (forall s :: s in st0.owner ==> s in st.owner)
  }

  /** What an effect changes for the flight: the binding, and the sandboxes that count. */
  ghost predicate View(st0: State, st: State, t: State, f: Fx, k: Key) {
    && Bound(t, k) == (if f.BindTo? && f.landed && f.key == k then Some(f.sid) else if f == Unbind(k) then None else Bound(st, k))
    && (forall s :: Ours(st0, st, k, s) ==> Ours(st0, t, k, s))
    && (forall s :: Ours(st0, t, k, s) ==> Ours(st0, st, k, s) || f == Provision(s, k))
    && (f.Provision? && f.key == k ==> Ours(st0, t, k, f.sid))
  }

  lemma MoveBinds(c: Config, st: State, pid: Pid, m: Move, k: Key)
    requires c.sessionTtl > 0
    ensures Bound(After(c, st, pid, m), k) ==
              if m.fx.BindTo? && m.fx.landed && m.fx.key == k then Some(m.fx.sid) else if m.fx == Unbind(k) then None else Bound(st, k)
  {
    CommitForward(c, st, pid, m.next.rid, m.fx, k);
  }

  lemma CommitOwns(c: Config, st: State, pid: Pid, rid: Rid, f: Fx)
    ensures var t := Commit(c, st, pid, rid, f);
            t.strays == st.strays && t.owner == if f.Provision? then st.owner[f.sid := f.key] else st.owner
  {
  }

  lemma MoveView(c: Config, st0: State, st: State, pid: Pid, m: Move, k: Key)
    requires Ordered(c, st) && FxOwned(st, m.fx) && c.sessionTtl > 0
    requires forall s :: s in st0.owner ==> s in st.owner
    ensures View(st0, st, After(c, st, pid, m), m.fx, k)
  {
    MoveBinds(c, st, pid, m, k);
    CommitOwns(c, st, pid, m.next.rid, m.fx);
  }

  lemma OthersAboard(st0: State, st: State, t: State, pid: Pid, o: Obs, m: Move, k: Key, q: Pid)
    requires Alone(st, k) && pid in st.procs && q in st.procs && q != pid && Aboard(st0, st, k, q, st.procs[q])
    requires Shape(st, st.procs[pid], o, m) && View(st0, st, t, m.fx, k)
    ensures Aboard(st0, t, k, q, st.procs[q])
  {
    if st.procs[q].key == k && (st.procs[q].pc.Create? || st.procs[q].pc.PutForward?) {
      assert Inside(st, k, q);
      assert Inside(st, k, pid) ==> pid == q;
    }
  }

  /** A call inside the critical section that is not about to bind knows that nobody is. */
  lemma NobodyPending(st: State, k: Key, pid: Pid)
    requires Alone(st, k) && Inside(st, k, pid) && !st.procs[pid].pc.PutForward?
    ensures forall q :: !Pending(st, k, q)
  {
    forall q | Pending(st, k, q)
      ensures false
    {
      assert Inside(st, k, q);
    }
  }

  lemma OwnAboard(st0: State, st: State, t: State, pid: Pid, o: Obs, m: Move, k: Key)
    requires pid in st.procs && Aboard(st0, st, k, pid, st.procs[pid]) && OneSandbox(st0, st, k) && Alone(st, k)
    requires Fair(k, st.procs[pid], o) && !st.procs[pid].pc.Gone?
    requires Shape(st, st.procs[pid], o, m) && PathShape(st, st.procs[pid], o, m) && View(st0, st, t, m.fx, k)
    requires OkLate(st.procs[pid]) && (st.procs[pid].ok ==> CallPc(st.procs[pid].pc))
    requires m.next.key == k ==> !m.next.pc.Reset? && !m.next.pc.Rollback?
    ensures Aboard(st0, t, k, pid, m.next)
  {
    var p := st.procs[pid];
    if m.next.pc.Create? && m.next.key == k {
      assert Inside(st, k, pid);
      NobodyPending(st, k, pid);
    }
  }

  /** While the key is unbound and nobody is about to bind it, nothing has been created in the flight. */
  lemma MoveKeepsIdle(st0: State, st: State, t: State, pid: Pid, o: Obs, m: Move, k: Key)
    requires pid in st.procs && Aboard(st0, st, k, pid, st.procs[pid]) && OneSandbox(st0, st, k) && NoEnders(st, k)
    requires Fair(k, st.procs[pid], o) && (st.procs[pid].pc.PutForward? ==> o.Done? || o.Lost? || o.Cancelled?)
    requires Shape(st, st.procs[pid], o, m) && PathShape(st, st.procs[pid], o, m) && View(st0, st, t, m.fx, k)
    requires t.procs == st.procs[pid := m.next] && Bound(t, k).None? && forall q :: !Pending(t, k, q)
    ensures NoneYet(st0, t, k)
  {
    assert !Pending(t, k, pid);
    forall q
      ensures !Pending(st, k, q)
    {
      assert !Pending(t, k, q);
    }
  }

  lemma MoveKeepsOne(st0: State, st: State, t: State, pid: Pid, o: Obs, m: Move, k: Key)
    requires pid in st.procs && Aboard(st0, st, k, pid, st.procs[pid]) && OneSandbox(st0, st, k)
    requires Fair(k, st.procs[pid], o) && !st.procs[pid].pc.Gone?
    requires Shape(st, st.procs[pid], o, m) && View(st0, st, t, m.fx, k)
    ensures forall s, u :: Ours(st0, t, k, s) && Ours(st0, t, k, u) ==> s == u
    ensures Bound(t, k).Some? ==> Ours(st0, t, k, Bound(t, k).value)
  {
  }

  lemma MoveKeepsAboard(st0: State, st: State, t: State, pid: Pid, o: Obs, m: Move, k: Key)
    requires AllAboard(st0, st, k) && OneSandbox(st0, st, k) && Alone(st, k) && pid in st.procs && Fair(k, st.procs[pid], o)
    requires !st.procs[pid].pc.Gone? && OkLate(st.procs[pid])
    requires Shape(st, st.procs[pid], o, m) && PathShape(st, st.procs[pid], o, m)
    requires View(st0, st, t, m.fx, k) && t.procs == st.procs[pid := m.next]
    requires NoEnders(st, k)
    ensures AllAboard(st0, t, k)
  {
    hide Aboard, OneSandbox, View;
    assert Aboard(st0, st, k, pid, st.procs[pid]);
    OwnAboard(st0, st, t, pid, o, m, k);
    forall q | q in st.procs && q != pid
      ensures Aboard(st0, t, k, q, st.procs[q])
    {
      OthersAboard(st0, st, t, pid, o, m, k, q);
    }
  }

  lemma DoKeepsFlight(c: Config, st0: State, st: State, pid: Pid, o: Obs, k: Key)
    requires Flight(c, st0, st, k) && Alone(st, k) && c.sessionTtl > 0 && Can(st, Do(pid, o)) && Fair(k, st.procs[pid], o)
    ensures var t := Apply(c, st, Do(pid, o));
            AllAboard(st0, t, k) && OneSandbox(st0, t, k)
  {
    var p := st.procs[pid];
    var m := Advance(c, st.now, p, o);
    var t := After(c, st, pid, m);
    assert Issued(st, p) && Aboard(st0, st, k, pid, p);
    AdvanceShape(c, st, p, o);
    AdvancePath(c, st, p, o);
    ShapeOwned(st, pid, o, m);
    MoveView(c, st0, st, pid, m, k);
    CommitLocal(c, st, pid, m.next.rid, m.fx);
    MoveKeepsAboard(st0, st, t, pid, o, m, k);
    MoveKeepsOne(st0, st, t, pid, o, m, k);
    if Bound(t, k).None? && forall q :: !Pending(t, k, q) {
      MoveKeepsIdle(st0, st, t, pid, o, m, k);
    }
  }

  /** The environment neither binds the key nor creates a sandbox of the flight. */
  lemma EnvironmentView(c: Config, st0: State, st: State, e: Event, k: Key)
    requires Flight(c, st0, st, k) && Can(st, e) && !e.Do?
    requires Respects(c, InWindow(k), st, e) && Respects(c, NoFault(k), st, e)
    ensures Bound(Apply(c, st, e), k) == Bound(st, k)
    ensures forall s :: Ours(st0, Apply(c, st, e), k, s) <==> Ours(st0, st, k, s)
  {
    hide Advance, Commit, Enabled, AllAboard, NoEnders, OneSandbox;
  }

  /** No call on the key dies, so every call is where it was, starts, or is on another key. */
  lemma AboardAfter(c: Config, st0: State, st: State, e: Event, k: Key, q: Pid)
    requires AllAboard(st0, st, k) && Can(st, e) && !e.Do? && Respects(c, NoFault(k), st, e) && q in Apply(c, st, e).procs
    ensures var p := Apply(c, st, e).procs[q];
            || (q in st.procs && p == st.procs[q] && Aboard(st0, st, k, q, p))
            || Starting(p) || !Calling(p, k)
    ensures q in st.procs && Calling(st.procs[q], k) ==> Apply(c, st, e).procs[q] == st.procs[q]
    ensures !Calling(Apply(c, st, e).procs[q], k) ==> Aboard(st0, Apply(c, st, e), k, q, Apply(c, st, e).procs[q])
  {
    hide Advance, Commit, Enabled;
  }

  lemma EnvironmentAboard(c: Config, st0: State, st: State, e: Event, k: Key)
    requires AllAboard(st0, st, k) && Can(st, e) && !e.Do? && Respects(c, NoFault(k), st, e)
    requires Bound(Apply(c, st, e), k) == Bound(st, k)
    requires forall s :: Ours(st0, Apply(c, st, e), k, s) <==> Ours(st0, st, k, s)
    ensures AllAboard(st0, Apply(c, st, e), k)
    ensures forall q :: Pending(st, k, q) ==> Pending(Apply(c, st, e), k, q)
  {
    hide Advance, Commit, Enabled, Ours;
    forall q | q in Apply(c, st, e).procs
      ensures Aboard(st0, Apply(c, st, e), k, q, Apply(c, st, e).procs[q])
    {
      AboardAfter(c, st0, st, e, k, q);
    }
  }

  lemma StepKeepsFlight(c: Config, st0: State, st: State, e: Event, k: Key)
    requires Flight(c, st0, st, k) && Alone(st, k) && c.sessionTtl > 0 && Can(st, e)
    requires Respects(c, InWindow(k), st, e) && Respects(c, NoFault(k), st, e)
    requires Respects(c, NoEnd(k), st, e)
    ensures Flight(c, st0, Apply(c, st, e), k)
  {
    hide OneSandbox, AllAboard, NoEnders, Apply, ProcsOrdered, StoreOrdered, Dated;
    StepKeepsOrdered(c, st, e);
    StepKeepsNoEnders(c, st, e, k);
    StepExtends(c, st, e);
    if e.Do? {
      DoKeepsFlight(c, st0, st, e.pid, e.obs, k);
    } else {
      EnvironmentView(c, st0, st, e, k);
      EnvironmentAboard(c, st0, st, e, k);
      EnvironmentKeepsOne(c, st0, st, e, k);
    }
  }

  lemma EnvironmentKeepsOne(c: Config, st0: State, st: State, e: Event, k: Key)
    requires OneSandbox(st0, st, k) && Can(st, e) && !e.Do?
    requires Bound(Apply(c, st, e), k) == Bound(st, k)
    requires forall s :: Ours(st0, Apply(c, st, e), k, s) <==> Ours(st0, st, k, s)
    requires forall q :: Pending(st, k, q) ==> Pending(Apply(c, st, e), k, q)
    ensures OneSandbox(st0, Apply(c, st, e), k)
  {
    hide Apply, Ours, Pending, Bound;
    if forall q :: !Pending(Apply(c, st, e), k, q) {
      assert forall q :: !Pending(st, k, q);
    }
  }

  lemma {:induction false} RunKeepsFlight(c: Config, A: set<Assumption>, st0: State, st: State, es: seq<Event>, t: State, k: Key)
    requires Flight(c, st0, st, k) && c.sessionTtl > 0 && IsRun(c, A, st, es, t)
    requires {Exclusive(k), InWindow(k), NoFault(k), NoEnd(k)} <= A
    ensures Flight(c, st0, t, k)
    decreases |es|
  {
    hide Apply, Flight;
    if es != [] {
      StepKeepsFlight(c, st0, st, es[0], k);
      RunKeepsFlight(c, A, st0, Apply(c, st, es[0]), es[1..], t, k);
    }
  }

  lemma RestTakesOff(c: Config, st0: State, k: Key)
    requires Ordered(c, st0) && AtRest(st0, k)
    ensures Flight(c, st0, st0, k)
  {
  }

  /** A sandbox created for the key by one of the calls since `st0`. */
  predicate Created(st0: State, t: State, k: Key, s: Sid) {
    Owned(t, s, k) && s !in st0.owner && s !in t.strays
  }

  /** A call on the key that started after `st0` and returns a client. */
  predicate Returned(st0: State, t: State, k: Key, pid: Pid) {
    pid in t.procs && pid !in st0.procs && t.procs[pid].key == k && t.procs[pid].ok
  }

  lemma FlightLands(c: Config, st0: State, t: State, k: Key)
    requires Flight(c, st0, t, k) && Ordered(c, st0) && Inv(t)
    requires Extends(st0, t)
    ensures forall s, u :: Created(st0, t, k, s) && Created(st0, t, k, u) ==> s == u
    ensures Bound(st0, k).Some? ==> forall s :: !Created(st0, t, k, s)
    ensures forall a, b :: Returned(st0, t, k, a) && Returned(st0, t, k, b) ==> t.procs[a].sid == t.procs[b].sid
    ensures forall a :: Returned(st0, t, k, a) && Bound(st0, k).Some? ==> Some(t.procs[a].sid) == Bound(st0, k)
  {
    assert forall s :: Created(st0, t, k, s) ==> Ours(st0, t, k, s);
    forall a | Returned(st0, t, k, a)
      ensures Ours(st0, t, k, t.procs[a].sid)
    {
      assert Aboard(st0, t, k, a, t.procs[a]) && Issued(t, t.procs[a]);
    }
    if Bound(st0, k).Some? {
      assert Ours(st0, t, k, Bound(st0, k).value);
    }
  }

  /**
    * Cross-replica single flight. From any reachable state in which the key is at rest,
    * however its locks did before, let any calls on it run on any replicas inside one session
    * window, without failures, while the locks of the key do their work. At most one sandbox
    * is created for the key, none if it was bound already, and all the calls that return a
    * client return the same one.
    */
  lemma OneSandboxPerWindow(c: Config, A: set<Assumption>, B: set<Assumption>, before: seq<Event>, st0: State,
                            es: seq<Event>, t: State, k: Key)
    requires IsRun(c, B, Init(), before, st0) && AtRest(st0, k)
    requires Locked(c, A, k) && {InWindow(k), NoFault(k), NoEnd(k)} <= A && c.sessionTtl > 0 && IsRun(c, A, st0, es, t)
    ensures forall s, u :: Created(st0, t, k, s) && Created(st0, t, k, u) ==> s == u
    ensures Bound(st0, k).Some? ==> forall s :: !Created(st0, t, k, s)
    ensures forall a, b :: Returned(st0, t, k, a) && Returned(st0, t, k, b) ==> t.procs[a].sid == t.procs[b].sid
    ensures forall a :: Returned(st0, t, k, a) && Bound(st0, k).Some? ==> Some(t.procs[a].sid) == Bound(st0, k)
  {
    hide IsRun, Locked, LocksOk, Created, Returned, AtRest;
    StartsOrdered(c);
    RunKeepsOrdered(c, B, Init(), before, st0);
    RestIsLocked(c, A, B, before, st0, k);
    LockedRunsExclude(c, A, A, st0, es, t, k);
    RestTakesOff(c, st0, k);
    RunKeepsFlight(c, A + {Exclusive(k)}, st0, st0, es, t, k);
    RunKeepsInv(c, A, st0, es, t);
    FlightLands(c, st0, t, k);
  }
}
