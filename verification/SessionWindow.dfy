/**
  * What exclusion on a key adds to the reaper's safety: a sandbox is not reaped before
  * its session window is over, and a sandbox in setup is not reaped at all.
  */
module SessionWindow {
  import opened Options
  import opened Routing
  import opened Protocol
  import opened Moves
  import opened Isolation
  import opened WriteOrder
  import opened ReaperSafety

  // --------------------------------------------------------------- no sandbox goes early

  /** The window of the sandbox is over, or its routing key was deleted on purpose. */
  predicate Spent(c: Config, st: State, s: Sid) {
    s in st.dropped || (s in st.touched && st.now >= st.touched[s] + c.sessionTtl)
  }

  /** A sandbox of the key that was ever bound is bound, gone, or has had its time. */
  ghost predicate Accounted(c: Config, st: State, k: Key) {
    forall s :: s in st.touched && Owned(st, s, k) ==> Bound(st, k) == Some(s) || Spent(c, st, s) || s !in st.live
  }

  /**
    * What a call knows of its key: from the miss to the binding, that it leads to no live sandbox;
    * while it reuses a sandbox, that it leads to no other; and that a sandbox it resets is gone.
    */
  predicate Knows(st: State, k: Key, p: Proc) {
    p.key == k ==>
      && (p.pc.Create? || p.pc.PutForward? ==> !LiveBound(st, k))
      && (Reusing(p.pc) ==> Bound(st, k) == None || Bound(st, k) == Some(p.sid))
      && (p.pc.Reset? ==> p.sid !in st.live)
  }

  ghost predicate Settled(st: State, k: Key) {
    forall pid :: pid in st.procs ==> Knows(st, k, st.procs[pid])
  }

  ghost predicate OnTime(c: Config, st: State, k: Key) {
    ReaperSafe(c, st, k) && Accounted(c, st, k) && Settled(st, k)
  }

  /** An effect on the forward map, seen from one key. */
  lemma CommitForward(c: Config, st: State, pid: Pid, rid: Rid, f: Fx, k: Key)
    ensures var t := Commit(c, st, pid, rid, f);
            && t.procs == st.procs && t.now == st.now
            && (k in t.forward <==> (f.BindTo? && f.landed && f.key == k) || (k in st.forward && f != Unbind(k)))
            && (k in t.forward ==>
                  t.forward[k] == if f.BindTo? && f.landed && f.key == k then Entry(f.sid, st.now + c.sessionTtl) else st.forward[k])
  {
  }

  lemma CommitLives(c: Config, st: State, pid: Pid, rid: Rid, f: Fx)
    ensures var t := Commit(c, st, pid, rid, f);
            t.live == if f.Provision? then st.live + {f.sid} else if f.Delete? then st.live - {f.sid} else st.live
  {
  }

  lemma CommitAccounts(c: Config, st: State, pid: Pid, rid: Rid, f: Fx, k: Key)
    requires Ordered(c, st) && Accounted(c, st, k) && FxOwned(st, f)
    requires f.BindTo? && f.landed && f.key == k ==> !LiveBound(st, k) || Bound(st, k) == Some(f.sid)
    ensures Accounted(c, Commit(c, st, pid, rid, f), k)
  {
  }

  /** A call that writes or deletes the routing key of `k` has no company in the critical section. */
  lemma WriterIsAlone(st: State, pid: Pid, o: Obs, m: Move, k: Key, q: Pid)
    requires Alone(st, k) && pid in st.procs && Shape(st, st.procs[pid], o, m)
    requires (m.fx.BindTo? || (m.fx.Unbind? && !EndPc(st.procs[pid].pc))) && m.fx.key == k
    ensures Inside(st, k, q) ==> q == pid
  {
    assert Inside(st, k, pid);
  }

  // what a call knows, step by step

  /** A step that binds the key to nothing new and brings no old sandbox to life. */
  predicate Calmer(st: State, t: State, k: Key) {
    && (Bound(t, k) == None || Bound(t, k) == Bound(st, k))
    && (forall s :: s in t.live ==> s in st.live || s !in st.owner)
  }

  lemma CalmerKnows(st: State, t: State, k: Key, p: Proc)
    requires Inv(st) && Knows(st, k, p) && Calmer(st, t, k) && (Holding(p) ==> Owned(st, p.sid, p.key))
    ensures Knows(t, k, p)
  {
  }

  lemma OthersKnow(c: Config, st: State, pid: Pid, o: Obs, m: Move, k: Key, q: Pid)
    requires Inv(st) && Alone(st, k) && pid in st.procs && q in st.procs && q != pid && Knows(st, k, st.procs[q])
    requires Shape(st, st.procs[pid], o, m) && FxOwned(st, m.fx)
    ensures Knows(After(c, st, pid, m), k, st.procs[q])
  {
    hide Commit, Knows;
    CommitForward(c, st, pid, m.next.rid, m.fx, k);
    CommitLives(c, st, pid, m.next.rid, m.fx);
    if m.fx.BindTo? && m.fx.key == k {
      WriterIsAlone(st, pid, o, m, k, q);
      OutsideKnows(After(c, st, pid, m), k, q, st.procs[q]);
    } else {
      CalmerKnows(st, After(c, st, pid, m), k, st.procs[q]);
    }
  }

  /** A call outside the critical section knows nothing. */
  lemma OutsideKnows(t: State, k: Key, q: Pid, p: Proc)
    requires !(p.key == k && Critical(p.pc))
    ensures Knows(t, k, p)
  {
  }

  /** Where a call comes from and what it does on its way to reuse or to create. */
  predicate Route(st: State, p: Proc, m: Move) {
    && (m.next.pc.Reset? ==> p.pc.Ensure? && m.next.sid !in st.live && m.fx == Nothing)
    && (m.next.pc.Ensure? ==> p.pc.Refresh? && m.fx == BindTo(p.key, m.next.sid, true))
    && (m.next.pc.Refresh? ==> m.fx == Nothing)
    && (m.next.pc.Create? ==> p.pc.Lookup? || p.pc.Refresh? || p.pc.Reset?)
    && (m.next.pc.Create? && (p.pc.Lookup? || p.pc.Reset?) ==> m.fx == Nothing || m.fx == Unbind(m.next.key))
  }

  lemma RouteOfCall(c: Config, st: State, p: Proc, o: Obs)
    requires Enabled(st, p, o) && !o.Cancelled? && CallPc(p.pc)
    ensures Route(st, p, AdvanceRoute(c, st.now, p, o))
  {
  }

  lemma RouteOfSetup(st: State, p: Proc, o: Obs)
    requires p.pc.PutForward? || InSetup(p.pc)
    ensures Route(st, p, AdvanceSetup(p, o))
  {
  }

  lemma RouteOfOthers(st: State, p: Proc, o: Obs)
    requires EndPc(p.pc) || ReapPc(p.pc)
    ensures Route(st, p, AdvanceEnd(p, o)) && Route(st, p, AdvanceReap(p, o))
  {
  }

  lemma RouteOfUnwound(st: State, p: Proc, f: Fx)
    ensures Route(st, p, Move(Unwound(p), f))
  {
  }

  lemma AdvanceRoutes(c: Config, st: State, p: Proc, o: Obs)
    requires Enabled(st, p, o)
    ensures Route(st, p, Advance(c, st.now, p, o))
  {
    hide Enabled, AdvanceRoute, AdvanceSetup, AdvanceEnd, AdvanceReap, Unwound, Route;
    if o.Cancelled? {
      RouteOfUnwound(st, p, When(o.applied, Sent(p)));
    } else if EndPc(p.pc) || ReapPc(p.pc) {
      RouteOfOthers(st, p, o);
    } else if p.pc.PutForward? || InSetup(p.pc) {
      RouteOfSetup(st, p, o);
    } else {
      RouteOfCall(c, st, p, o);
    }
  }

  /** What the call that moves knows next. */
  lemma OwnKnows(c: Config, st: State, pid: Pid, o: Obs, m: Move, k: Key)
    requires Inv(st) && pid in st.procs && Knows(st, k, st.procs[pid])
    requires Shape(st, st.procs[pid], o, m) && PathShape(st, st.procs[pid], o, m) && FxOwned(st, m.fx)
    requires MissesBlindly(st, Do(pid, o), k) ==> !LiveBound(After(c, st, pid, m), k)
    requires Route(st, st.procs[pid], m)
    ensures Knows(After(c, st, pid, m), k, m.next)
  {
    hide Commit;
    CommitForward(c, st, pid, m.next.rid, m.fx, k);
    CommitLives(c, st, pid, m.next.rid, m.fx);
  }

  lemma DoKeepsSettled(c: Config, st: State, pid: Pid, o: Obs, k: Key)
    requires Ordered(c, st) && Settled(st, k) && Can(st, Do(pid, o)) && Alone(st, k)
    requires Respects(c, ReadsAnswer(k), st, Do(pid, o))
    ensures Settled(Apply(c, st, Do(pid, o)), k)
  {
    var m := Advance(c, st.now, st.procs[pid], o);
    var t := After(c, st, pid, m);
    assert Issued(st, st.procs[pid]) && Knows(st, k, st.procs[pid]);
    AdvanceShape(c, st, st.procs[pid], o);
    AdvancePath(c, st, st.procs[pid], o);
    AdvanceOwned(c, st, pid, o);
    AdvanceRoutes(c, st, st.procs[pid], o);
    hide Advance, Enabled, Commit, Knows, PathShape, Shape, MoveOwned, LiveBound, Route, ProcsOrdered, StoreOrdered, Dated;
    OwnMoveKnows(c, st, pid, o, m, k);
    forall q | q in t.procs
      ensures Knows(t, k, t.procs[q])
    {
      CommitForward(c, st, pid, m.next.rid, m.fx, k);
      if q != pid {
        OthersKnowToo(c, st, pid, o, m, k, q);
      }
    }
  }

  lemma OwnMoveKnows(c: Config, st: State, pid: Pid, o: Obs, m: Move, k: Key)
    requires Inv(st) && Settled(st, k) && pid in st.procs && MoveOwned(st, m)
    requires Shape(st, st.procs[pid], o, m) && PathShape(st, st.procs[pid], o, m)
    requires MissesBlindly(st, Do(pid, o), k) ==> !LiveBound(After(c, st, pid, m), k)
    requires Route(st, st.procs[pid], m)
    ensures Knows(After(c, st, pid, m), k, m.next)
  {
    hide Commit, Knows, Shape, PathShape, LiveBound, Route;
    assert Knows(st, k, st.procs[pid]);
    OwnKnows(c, st, pid, o, m, k);
  }

  lemma OthersKnowToo(c: Config, st: State, pid: Pid, o: Obs, m: Move, k: Key, q: Pid)
    requires Inv(st) && Settled(st, k) && Alone(st, k) && pid in st.procs && q in st.procs && q != pid
    requires Shape(st, st.procs[pid], o, m) && MoveOwned(st, m)
    ensures Knows(After(c, st, pid, m), k, st.procs[q])
  {
    hide Commit, Knows, Shape;
    assert Knows(st, k, st.procs[q]);
    OthersKnow(c, st, pid, o, m, k, q);
  }

  lemma EnvironmentKeepsSettled(c: Config, st: State, e: Event, k: Key)
    requires Inv(st) && Settled(st, k) && Can(st, e) && !e.Do?
    ensures Settled(Apply(c, st, e), k)
  {
    hide Apply, Can, Knows;
    EnvironmentFrame(c, st, e);
    EnvironmentSurvivors(c, st, e);
    var t := Apply(c, st, e);
    forall pid | pid in t.procs
      ensures Knows(t, k, t.procs[pid])
    {
      assert Survivor(st, pid, t.procs[pid]);
      if pid in st.procs && t.procs[pid] == st.procs[pid] {
        CalmerKnows(st, t, k, t.procs[pid]);
      } else {
        OutsideKnows(t, k, pid, t.procs[pid]);
      }
    }
  }

  /**
    * What makes `ReadsAnswer` necessary: while calls on the key exclude each other, a step loses
    * what the calls on the key know of it exactly when it lets a call go on to create beside a live
    * sandbox that is bound, because its read failed.
    */
  lemma SettledIffAnswered(c: Config, st: State, pid: Pid, o: Obs, k: Key)
    requires Ordered(c, st) && Settled(st, k) && Can(st, Do(pid, o)) && Alone(st, k)
    ensures Settled(Apply(c, st, Do(pid, o)), k) <==> Respects(c, ReadsAnswer(k), st, Do(pid, o))
  {
    if Respects(c, ReadsAnswer(k), st, Do(pid, o)) {
      DoKeepsSettled(c, st, pid, o, k);
    } else {
      BlindCreates(c, st, pid, o, k);
      assert !Knows(Apply(c, st, Do(pid, o)), k, Apply(c, st, Do(pid, o)).procs[pid]);
    }
  }

  lemma BlindCreates(c: Config, st: State, pid: Pid, o: Obs, k: Key)
    requires Can(st, Do(pid, o)) && MissesBlindly(st, Do(pid, o), k)
    ensures var t := Apply(c, st, Do(pid, o)); pid in t.procs && t.procs[pid].key == k && t.procs[pid].pc.Create?
  {
  }

  /** A routing key is written only where it leads to no live sandbox, or to the same one already. */
  lemma BindsSafely(st: State, p: Proc, o: Obs, m: Move, k: Key)
    requires Knows(st, k, p) && FxShape(p, o, m.next, m.fx)
    ensures m.fx.BindTo? && m.fx.key == k ==> !LiveBound(st, k) || Bound(st, k) == Some(m.fx.sid)
  {
  }

  lemma DoKeepsAccounts(c: Config, st: State, pid: Pid, o: Obs, k: Key)
    requires Ordered(c, st) && Accounted(c, st, k) && Settled(st, k) && Can(st, Do(pid, o))
    ensures Accounted(c, Apply(c, st, Do(pid, o)), k)
  {
    var m := Advance(c, st.now, st.procs[pid], o);
    assert Knows(st, k, st.procs[pid]);
    hide Advance, Enabled, Knows, Commit, Accounted;
    AdvanceShape(c, st, st.procs[pid], o);
    BindsSafely(st, st.procs[pid], o, m, k);
    AdvanceOwned(c, st, pid, o);
    CommitAccounts(c, st, pid, m.next.rid, m.fx, k);
    AccountsIgnoreProcs(c, Commit(c, st, pid, m.next.rid, m.fx), Apply(c, st, Do(pid, o)), k);
  }

  lemma AccountsIgnoreProcs(c: Config, st: State, t: State, k: Key)
    requires Accounted(c, st, k) && t == st.(procs := t.procs)
    ensures Accounted(c, t, k)
  {
  }

  lemma EnvironmentKeepsAccounts(c: Config, st: State, e: Event, k: Key)
    requires Ordered(c, st) && Accounted(c, st, k) && Can(st, e) && !e.Do? && Respects(c, KeyKept(k), st, e)
    ensures Accounted(c, Apply(c, st, e), k)
  {
    hide Apply, Can, Respects;
    EnvironmentFrame(c, st, e);
    BindingKept(c, st, e, k);
  }

  /** While Redis does not lose the key, its binding only lapses. */
  lemma BindingKept(c: Config, st: State, e: Event, k: Key)
    requires Can(st, e) && !e.Do? && Respects(c, KeyKept(k), st, e)
    ensures k in st.forward ==> k in Apply(c, st, e).forward && Apply(c, st, e).forward[k] == st.forward[k]
  {
    hide Advance, Commit, Enabled;
  }

  lemma StepKeepsOnTime(c: Config, st: State, e: Event, k: Key)
    requires OnTime(c, st, k) && Can(st, e) && Alone(st, k)
    requires Respects(c, KeyKept(k), st, e) && Respects(c, ReadsAnswer(k), st, e) && Respects(c, AtomicSlide(k), st, e)
    ensures OnTime(c, Apply(c, st, e), k)
  {
    hide Apply, Accounted, Settled, Peeked, ProcsOrdered, StoreOrdered, Dated;
    StepKeepsOrdered(c, st, e);
    StepKeepsPeeked(c, st, e, k);
    if e.Do? {
      DoKeepsSettled(c, st, e.pid, e.obs, k);
      DoKeepsAccounts(c, st, e.pid, e.obs, k);
    } else {
      EnvironmentKeepsSettled(c, st, e, k);
      EnvironmentKeepsAccounts(c, st, e, k);
    }
  }

  lemma {:induction false} RunKeepsOnTime(c: Config, A: set<Assumption>, st: State, es: seq<Event>, t: State, k: Key)
    requires OnTime(c, st, k) && IsRun(c, A, st, es, t)
    requires {KeyKept(k), ReadsAnswer(k), AtomicSlide(k), Exclusive(k)} <= A
    ensures OnTime(c, t, k)
    decreases |es|
  {
    hide Apply, OnTime;
    if es != [] {
      StepKeepsOnTime(c, st, es[0], k);
      RunKeepsOnTime(c, A, Apply(c, st, es[0]), es[1..], t, k);
    }
  }

  lemma StartsOnTime(c: Config, k: Key)
    ensures OnTime(c, Init(), k)
  {
  }

  /**
    * What makes `KeyKept` necessary: when Redis loses data, a sandbox is left unaccounted for exactly
    * when the routing key is among what is lost and leads to a live sandbox nobody unbound before.
    */
  lemma AccountedIffKept(c: Config, st: State, e: Event, k: Key)
    requires Ordered(c, st) && Accounted(c, st, k) && e.Forget?
    ensures Accounted(c, Apply(c, st, e), k) <==> (k in e.keys && LiveBound(st, k) ==> Bound(st, k).value in st.dropped)
  {
    var t := Apply(c, st, e);
    if LiveBound(st, k) {
      var s := Bound(st, k).value;
      assert s in st.touched && Owned(st, s, k) && st.now < st.touched[s] + c.sessionTtl;
      assert k in e.keys ==> Bound(t, k) == None;
    }
  }

  /**
    * No early reap: while calls on the key exclude each other, its sliding reads are one step and
    * no failed read lets a call create beside a live sandbox, and unless Redis loses the routing
    * key, a live sandbox that the reaper is about to delete and that was ever bound was last
    * written to its routing key at least a session window ago, or its key was deleted: by a
    * rollback, by the reset that follows a missing sandbox, or by the end of the session.
    * Any write may be lost.
    */
  lemma NoEarlyReap(c: Config, A: set<Assumption>, es: seq<Event>, t: State, reaper: Pid, k: Key)
    requires IsRun(c, A, Init(), es, t) && {KeyKept(k), ReadsAnswer(k), AtomicSlide(k), Exclusive(k)} <= A
    requires reaper in t.procs && t.procs[reaper].pc.RDelete? && t.procs[reaper].key == k
    ensures var s := t.procs[reaper].sid;
            Owned(t, s, k) && (s in t.live && s in t.touched ==> s in t.dropped || t.now >= t.touched[s] + c.sessionTtl)
  {
    StartsOnTime(c, k);
    RunKeepsOnTime(c, A, Init(), es, t, k);
    assert Issued(t, t.procs[reaper]);
  }

  // sandboxes that were really bound

  /** Every sandbox of the key that is past its routing-key write was bound. */
  ghost predicate Written(st: State, k: Key) {
    forall s :: s in st.issued && Owned(st, s, k) ==> s in st.touched
  }

  lemma CommitWrites(c: Config, st: State, pid: Pid, rid: Rid, f: Fx, k: Key)
    requires StoreOrdered(st) && Written(st, k) && FxOwned(st, f)
    requires f.BindTo? && f.key == k ==> f.landed || f.sid in st.touched
    ensures Written(Commit(c, st, pid, rid, f), k)
  {
  }

  /** What is bound for the first time is bound, and what is refreshed was. */
  lemma BindsWhenAnswered(c: Config, st: State, pid: Pid, o: Obs, k: Key)
    requires Ordered(c, st) && Written(st, k) && Can(st, Do(pid, o)) && Respects(c, BindingLands(k), st, Do(pid, o))
    ensures var f := Advance(c, st.now, st.procs[pid], o).fx;
            f.BindTo? && f.key == k ==> f.landed || f.sid in st.touched
  {
    var p := st.procs[pid];
    AdvanceShape(c, st, p, o);
    assert Issued(st, p);
  }

  lemma StepKeepsWritten(c: Config, st: State, e: Event, k: Key)
    requires Ordered(c, st) && Written(st, k) && Can(st, e) && Respects(c, BindingLands(k), st, e)
    ensures Written(Apply(c, st, e), k)
  {
    if e.Do? {
      var m := Advance(c, st.now, st.procs[e.pid], e.obs);
      BindsWhenAnswered(c, st, e.pid, e.obs, k);
      AdvanceOwned(c, st, e.pid, e.obs);
      hide Advance, Enabled, Commit;
      CommitWrites(c, st, e.pid, m.next.rid, m.fx, k);
    } else {
      hide Apply, Can;
      EnvironmentFrame(c, st, e);
    }
  }

  lemma {:induction false} RunKeepsWritten(c: Config, A: set<Assumption>, st: State, es: seq<Event>, t: State, k: Key)
    requires Ordered(c, st) && Written(st, k) && IsRun(c, A, st, es, t) && BindingLands(k) in A
    ensures Written(t, k)
    decreases |es|
  {
    hide Apply, Ordered, Written;
    if es != [] {
      StepKeepsOrdered(c, st, es[0]);
      StepKeepsWritten(c, st, es[0], k);
      RunKeepsWritten(c, A, Apply(c, st, es[0]), es[1..], t, k);
    }
  }

  /** If moreover no first binding is lost, that holds of every live sandbox the reaper is about to delete. */
  lemma NoEarlyReapOfAny(c: Config, A: set<Assumption>, es: seq<Event>, t: State, reaper: Pid, k: Key)
    requires IsRun(c, A, Init(), es, t) && {BindingLands(k), KeyKept(k), ReadsAnswer(k), AtomicSlide(k), Exclusive(k)} <= A
    requires reaper in t.procs && t.procs[reaper].pc.RDelete? && t.procs[reaper].key == k && t.procs[reaper].sid in t.live
    ensures var s := t.procs[reaper].sid;
            Owned(t, s, k) && s in t.touched && (s in t.dropped || t.now >= t.touched[s] + c.sessionTtl)
  {
    hide IsRun;
    NoEarlyReap(c, A, es, t, reaper, k);
    StartsOrdered(c);
    RunKeepsOrdered(c, A, Init(), es, t);
    RunKeepsWritten(c, A, Init(), es, t, k);
    assert Issued(t, t.procs[reaper]);
  }

  // ---------------------------------------------------------- a sandbox in setup is safe

  ghost predicate NoEnders(st: State, k: Key) {
    forall pid :: pid in st.procs && st.procs[pid].key == k ==> !EndPc(st.procs[pid].pc)
  }

  /** From the routing-key write to the end of the setup, the key leads to the new sandbox. */
  predicate Leads(st: State, k: Key, p: Proc) {
    p.key == k && InSetup(p.pc) ==> k in st.forward && st.forward[k].sid == p.sid
  }

  ghost predicate SetupBound(st: State, k: Key) {
    forall pid :: pid in st.procs ==> Leads(st, k, st.procs[pid])
  }

  /** The creator of a sandbox, from the creation to the end of its setup. */
  predicate Nascent(p: Proc, k: Key) {
    p.key == k && (p.pc.PutForward? || InSetup(p.pc))
  }

  /** No reaper is about to delete a sandbox of the key that is being created. */
  ghost predicate Spared(st: State, k: Key) {
    forall a, b :: a in st.procs && b in st.procs && Nascent(st.procs[a], k) && st.procs[b].pc.RDelete?
      ==> st.procs[a].sid != st.procs[b].sid
  }

  ghost predicate SetupSafe(c: Config, st: State, k: Key) {
    Ordered(c, st) && NoEnders(st, k) && SetupBound(st, k) && AllFit(c, st, k) && Spared(st, k)
  }

  lemma StepKeepsNoEnders(c: Config, st: State, e: Event, k: Key)
    requires NoEnders(st, k) && Can(st, e) && Respects(c, NoEnd(k), st, e)
    ensures NoEnders(Apply(c, st, e), k)
  {
    hide Apply, Advance, Enabled;
    forall pid | pid in Apply(c, st, e).procs && Apply(c, st, e).procs[pid].key == k
      ensures !EndPc(Apply(c, st, e).procs[pid].pc)
    {
      ProcsAfter(c, st, e, pid);
      if e.Do? {
        EndersWereEnders(c, st, st.procs[e.pid], e.obs);
      }
    }
  }

  lemma EndersWereEnders(c: Config, st: State, p: Proc, o: Obs)
    requires Enabled(st, p, o)
    ensures var q := Advance(c, st.now, p, o).next; EndPc(q.pc) ==> EndPc(p.pc) && q.key == p.key
  {
    hide Advance, Enabled;
    AdvanceShape(c, st, p, o);
  }

  lemma MoveLeads(c: Config, st: State, pid: Pid, o: Obs, m: Move, k: Key)
    requires pid in st.procs && Leads(st, k, st.procs[pid])
    requires Shape(st, st.procs[pid], o, m) && PathShape(st, st.procs[pid], o, m)
    requires st.procs[pid].pc.PutForward? && InSetup(m.next.pc) ==> Landed(o)
    requires !EndPc(st.procs[pid].pc) || st.procs[pid].key != k
    ensures Leads(After(c, st, pid, m), k, m.next)
  {
    CommitForward(c, st, pid, m.next.rid, m.fx, k);
  }

  lemma OthersLead(c: Config, st: State, pid: Pid, o: Obs, m: Move, k: Key, q: Pid)
    requires Alone(st, k) && pid in st.procs && q in st.procs && q != pid && Leads(st, k, st.procs[q])
    requires Shape(st, st.procs[pid], o, m) && (!EndPc(st.procs[pid].pc) || st.procs[pid].key != k)
    ensures Leads(After(c, st, pid, m), k, st.procs[q])
  {
    CommitForward(c, st, pid, m.next.rid, m.fx, k);
    if (m.fx.BindTo? || m.fx.Unbind?) && m.fx.key == k {
      WriterIsAlone(st, pid, o, m, k, q);
    }
  }

  lemma MoveKeepsSetup(c: Config, st: State, pid: Pid, o: Obs, m: Move, k: Key)
    requires SetupBound(st, k) && NoEnders(st, k) && Alone(st, k) && pid in st.procs
    requires Shape(st, st.procs[pid], o, m) && PathShape(st, st.procs[pid], o, m)
    requires st.procs[pid].pc.PutForward? && InSetup(m.next.pc) ==> Landed(o)
    ensures SetupBound(After(c, st, pid, m), k)
  {
    var t := After(c, st, pid, m);
    forall q | q in t.procs
      ensures Leads(t, k, t.procs[q])
    {
      CommitForward(c, st, pid, m.next.rid, m.fx, k);
      if q == pid {
        MoveLeads(c, st, pid, o, m, k);
      } else {
        OthersLead(c, st, pid, o, m, k, q);
      }
    }
  }

  lemma DoKeepsSetup(c: Config, st: State, pid: Pid, o: Obs, k: Key)
    requires SetupSafe(c, st, k) && Can(st, Do(pid, o)) && Alone(st, k) && Respects(c, BindingLands(k), st, Do(pid, o))
    ensures SetupBound(After(c, st, pid, Advance(c, st.now, st.procs[pid], o)), k)
  {
    var p := st.procs[pid];
    assert Issued(st, p);
    AdvanceShape(c, st, p, o);
    AdvancePath(c, st, p, o);
    if p.key == k {
      BoundWhenAnswered(c, st, p, o);
      MoveKeepsSetup(c, st, pid, o, Advance(c, st.now, p, o), k);
    } else {
      ElsewhereKeepsSetup(c, st, pid, o, Advance(c, st.now, p, o), k);
    }
  }

  lemma BoundWhenAnswered(c: Config, st: State, p: Proc, o: Obs)
    requires Enabled(st, p, o)
    ensures p.pc.PutForward? && InSetup(Advance(c, st.now, p, o).next.pc) ==> o.Done? || o.Lost?
  {
  }

  /** Calls on other keys, and whatever reaps or ends them, leave the key alone. */
  lemma ElsewhereKeepsSetup(c: Config, st: State, pid: Pid, o: Obs, m: Move, k: Key)
    requires SetupBound(st, k) && pid in st.procs && st.procs[pid].key != k && Shape(st, st.procs[pid], o, m)
    ensures SetupBound(After(c, st, pid, m), k)
  {
    CommitForward(c, st, pid, m.next.rid, m.fx, k);
    assert forall q :: q in st.procs ==> Leads(st, k, st.procs[q]);
  }

  lemma EnvironmentKeepsSetup(c: Config, st: State, e: Event, k: Key)
    requires SetupBound(st, k) && Can(st, e) && !e.Do? && Respects(c, KeyKept(k), st, e)
    ensures SetupBound(Apply(c, st, e), k)
  {
    forall pid | pid in Apply(c, st, e).procs
      ensures Leads(Apply(c, st, e), k, Apply(c, st, e).procs[pid])
    {
      ProcsAfter(c, st, e, pid);
    }
  }

  /** A sandbox that is being created is not unbound, or not known to any reaper yet. */
  lemma NascentIsNotDoomed(c: Config, st: State, k: Key, a: Pid, s: Sid)
    requires SetupSafe(c, st, k) && a in st.procs && Nascent(st.procs[a], k) && Unbound(st, s) && s in st.issued
    ensures st.procs[a].sid != s
  {
    var p := st.procs[a];
    assert Issued(st, p) && Leads(st, k, p) && Fits(c, st, k, p);
  }

  /** A creator holds a sandbox that is new, or the one it held. */
  lemma NascentBefore(st: State, p: Proc, o: Obs, m: Move, k: Key)
    requires Shape(st, p, o, m) && PathShape(st, p, o, m) && Nascent(m.next, k)
    ensures m.next.sid !in st.owner || (Nascent(p, k) && m.next.sid == p.sid)
  {
  }

  lemma ReplaceSpares(st: State, t: State, pid: Pid, next: Proc, k: Key)
    requires Spared(st, k) && t.procs == st.procs[pid := next]
    requires forall b :: b in st.procs && Nascent(next, k) && st.procs[b].pc.RDelete? ==> next.sid != st.procs[b].sid
    requires forall a :: a in st.procs && Nascent(st.procs[a], k) && next.pc.RDelete? ==> st.procs[a].sid != next.sid
    ensures Spared(t, k)
  {
  }

  lemma MoveSpares(c: Config, st: State, pid: Pid, o: Obs, m: Move, k: Key)
    requires SetupSafe(c, st, k) && pid in st.procs && Shape(st, st.procs[pid], o, m) && PathShape(st, st.procs[pid], o, m)
    requires m.next.pc.RDelete? ==> Unbound(st, m.next.sid) && m.next.sid in st.issued
    ensures Spared(After(c, st, pid, m), k)
  {
    forall b | b in st.procs && Nascent(m.next, k) && st.procs[b].pc.RDelete?
      ensures m.next.sid != st.procs[b].sid
    {
      CreatorSpared(c, st, pid, o, m, k, b);
    }
    forall a | a in st.procs && Nascent(st.procs[a], k) && m.next.pc.RDelete?
      ensures st.procs[a].sid != m.next.sid
    {
      NascentIsNotDoomed(c, st, k, a, m.next.sid);
    }
    CommitIssues(c, st, pid, m.next.rid, m.fx);
    ReplaceSpares(st, After(c, st, pid, m), pid, m.next, k);
  }

  lemma CreatorSpared(c: Config, st: State, pid: Pid, o: Obs, m: Move, k: Key, b: Pid)
    requires Inv(st) && Spared(st, k) && pid in st.procs && b in st.procs && st.procs[b].pc.RDelete? && Nascent(m.next, k)
    requires Shape(st, st.procs[pid], o, m) && PathShape(st, st.procs[pid], o, m)
    ensures m.next.sid != st.procs[b].sid
  {
    NascentBefore(st, st.procs[pid], o, m, k);
    assert Owned(st, st.procs[b].sid, st.procs[b].key);
  }

  lemma DoSpares(c: Config, st: State, pid: Pid, o: Obs, k: Key)
    requires SetupSafe(c, st, k) && Can(st, Do(pid, o))
    ensures Spared(After(c, st, pid, Advance(c, st.now, st.procs[pid], o)), k)
  {
    assert Issued(st, st.procs[pid]);
    AdvanceShape(c, st, st.procs[pid], o);
    AdvancePath(c, st, st.procs[pid], o);
    OnlyPeekDooms(c, st, pid, o);
    MoveSpares(c, st, pid, o, Advance(c, st.now, st.procs[pid], o), k);
  }

  lemma EnvironmentSpares(c: Config, st: State, e: Event, k: Key)
    requires Spared(st, k) && Can(st, e) && !e.Do?
    ensures Spared(Apply(c, st, e), k)
  {
    var t := Apply(c, st, e);
    forall a, b | a in t.procs && b in t.procs && Nascent(t.procs[a], k) && t.procs[b].pc.RDelete?
      ensures t.procs[a].sid != t.procs[b].sid
    {
      ProcsAfter(c, st, e, a);
      ProcsAfter(c, st, e, b);
    }
  }

  lemma StepKeepsSetupSafe(c: Config, st: State, e: Event, k: Key)
    requires SetupSafe(c, st, k) && Can(st, e) && Alone(st, k)
    requires Respects(c, KeyKept(k), st, e) && Respects(c, BindingLands(k), st, e)
    requires Respects(c, NoEnd(k), st, e) && Respects(c, SetupFits(k), st, e)
    ensures SetupSafe(c, Apply(c, st, e), k)
  {
    StepKeepsOrdered(c, st, e);
    StepKeepsNoEnders(c, st, e, k);
    if e.Do? {
      DoKeepsSetup(c, st, e.pid, e.obs, k);
      DoSpares(c, st, e.pid, e.obs, k);
    } else {
      EnvironmentKeepsSetup(c, st, e, k);
      EnvironmentSpares(c, st, e, k);
    }
  }

  lemma {:induction false} RunKeepsSetupSafe(c: Config, A: set<Assumption>, st: State, es: seq<Event>, t: State, k: Key)
    requires SetupSafe(c, st, k) && IsRun(c, A, st, es, t)
    requires {KeyKept(k), BindingLands(k), Exclusive(k), NoEnd(k), SetupFits(k)} <= A
    ensures SetupSafe(c, t, k)
    decreases |es|
  {
    hide Apply, SetupSafe;
    if es != [] {
      StepKeepsSetupSafe(c, st, es[0], k);
      RunKeepsSetupSafe(c, A, Apply(c, st, es[0]), es[1..], t, k);
    }
  }

  lemma StartsSetupSafe(c: Config, k: Key)
    ensures SetupSafe(c, Init(), k)
  {
  }

  /**
    * A sandbox in setup is never reaped: no reaper is ever about to delete a sandbox whose
    * creating call has yet to bind it, index it or finish bootstrapping it, provided that
    * calls on the key exclude each other, its first binding lands and Redis does not lose it,
    * nobody ends its session, and setups fit into the session window. A sliding read need not
    * be one step, and other writes may be lost.
    */
  lemma SetupIsNeverReaped(c: Config, A: set<Assumption>, es: seq<Event>, t: State, k: Key, creator: Pid, reaper: Pid)
    requires IsRun(c, A, Init(), es, t) && {KeyKept(k), BindingLands(k), Exclusive(k), NoEnd(k), SetupFits(k)} <= A
    requires creator in t.procs && Nascent(t.procs[creator], k)
    requires reaper in t.procs && t.procs[reaper].pc.RDelete?
    ensures t.procs[reaper].sid != t.procs[creator].sid
  {
    StartsSetupSafe(c, k);
    RunKeepsSetupSafe(c, A, Init(), es, t, k);
  }
}
