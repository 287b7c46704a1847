/**
  * A summary of the program text: which control point each effect comes from, which
  * sandbox and key it is about, and how a process comes to hold a sandbox. Later
  * proofs rest on it instead of on `Advance`.
  */
module Moves {
  import opened Options
  import opened Routing
  import opened Protocol

  /** Control points at which `sid` and `key` of a process have been set together. */
  predicate Holding(p: Proc) {
    || p.pc.Refresh? || p.pc.Ensure? || p.pc.Reset? || p.pc.PutForward? || InSetup(p.pc) || p.pc.Serve?
    || p.pc.EDelete? || p.pc.EUnbind? || p.pc.EDrop? || p.pc.RPeek? || p.pc.RDelete? || p.pc.RDrop?
    || p.ok
  }

  predicate FxShape(p: Proc, o: Obs, next: Proc, f: Fx) {
    match f
    case Nothing => true
    case BindTo(k, s, landed) =>
      k == p.key && s == p.sid && landed == Landed(o) && (p.pc.PutForward? || p.pc.Refresh?)
    case Unbind(k) => k == p.key && Landed(o) && (p.pc.Reset? || p.pc.Rollback? || p.pc.EUnbind?)
    case PutMeta(s, k, landed) => k == p.key && s == p.sid && landed == Landed(o) && p.pc.PutIndex?
    case DropMeta(s) => s == p.sid && (p.pc.EDrop? || p.pc.RDrop?)
    case Flag(s) => s == p.sid && p.pc.Mark?
    case Provision(s, k) => k == p.key && o == Fresh(s) && p.pc.Create? && next == p.(pc := PutForward, sid := s)
    case Booted(s) => s == p.sid && o.Done? && p.pc.Boot?
    case Delete(s) => s == p.sid && Landed(o) && (p.pc.EDelete? || p.pc.RDelete?)
    case TakeLocal(k) => k == p.key && p.pc.WaitLocal?
    case FreeLocal(k) => k == p.key && p.pc.UnlockLocal?
    case TakeRedis(k) => k == p.key && p.pc.WaitRedis?
    case FreeRedis(k) => k == p.key && p.pc.UnlockRedis?
    case Serving(k, s) => k == p.key && s == p.sid && p.pc.Serve?
  }

  /** A call has decided to return a client only once it is leaving. */
  predicate OkLate(p: Proc) {
    p.ok ==> p.pc.UnlockRedis? || p.pc.UnlockLocal? || p.pc.Serve? || p.pc.Gone?
  }

  /** A process stays of its kind, a call stays on its key, and only a call returns a client. */
  predicate KeepsKind(p: Proc, next: Proc) {
    && next.rid == p.rid
    && (CallPc(p.pc) ==> next.key == p.key && CallPc(next.pc))
    && (EndPc(p.pc) ==> next.key == p.key && (EndPc(next.pc) || next.pc.Gone?))
    && (!CallPc(p.pc) ==> next.ok == p.ok)
    && (OkLate(p) ==> OkLate(next))
    && (ReapPc(p.pc) ==> ReapPc(next.pc) || next.pc.Gone?)
  }

  /** A held sandbox was held before, read from the routing key, read from the index, or just created. */
  predicate Acquires(st: State, p: Proc, next: Proc) {
    && (next.pc.PutForward? ==> p.pc.Create? && next.sid !in st.owner)
    && (Holding(next) ==>
          || (Holding(p) && next.sid == p.sid && next.key == p.key)
          || (Bound(st, next.key) == Some(next.sid) && !next.pc.PutForward?)
          || (ReapPc(p.pc) && next.sid in st.index && st.index[next.sid] == next.key)
          || next.pc.PutForward?)
  }

  /** The move a process makes, summed up. */
  predicate Shape(st: State, p: Proc, o: Obs, m: Move) {
    && FxShape(p, o, m.next, m.fx) && KeepsKind(p, m.next) && Acquires(st, p, m.next)
    && (m.next.pc.PutForward? ==> m.fx == Provision(m.next.sid, m.next.key))
    && (p.pc.PutForward? ==> m.fx == BindTo(p.key, p.sid, Landed(o)) || !Holding(m.next))
  }

  lemma RouteFx(c: Config, now: nat, p: Proc, o: Obs)
    requires CallPc(p.pc) && !p.pc.PutForward? && !InSetup(p.pc)
    ensures var m := AdvanceRoute(c, now, p, o);
            && FxShape(p, o, m.next, m.fx)
            && (m.next.pc.PutForward? ==> m.fx == Provision(m.next.sid, m.next.key))
  {
  }

  lemma RouteKind(c: Config, now: nat, p: Proc, o: Obs)
    requires CallPc(p.pc) && !p.pc.PutForward? && !InSetup(p.pc)
    ensures KeepsKind(p, AdvanceRoute(c, now, p, o).next)
  {
  }

  lemma RouteAcquires(c: Config, st: State, p: Proc, o: Obs)
    requires CallPc(p.pc) && !p.pc.PutForward? && !InSetup(p.pc) && Enabled(st, p, o) && !o.Cancelled?
    ensures Acquires(st, p, AdvanceRoute(c, st.now, p, o).next)
  {
  }

  lemma SetupFx(p: Proc, o: Obs)
    requires p.pc.PutForward? || InSetup(p.pc)
    ensures var m := AdvanceSetup(p, o); FxShape(p, o, m.next, m.fx)
  {
  }

  lemma SetupKind(st: State, p: Proc, o: Obs)
    requires p.pc.PutForward? || InSetup(p.pc)
    ensures KeepsKind(p, AdvanceSetup(p, o).next) && Acquires(st, p, AdvanceSetup(p, o).next)
  {
  }

  lemma EndShape(st: State, p: Proc, o: Obs)
    requires EndPc(p.pc) && Enabled(st, p, o) && !o.Cancelled?
    ensures Shape(st, p, o, AdvanceEnd(p, o))
  {
  }

  lemma ReapFx(p: Proc, o: Obs)
    requires ReapPc(p.pc)
    ensures FxShape(p, o, AdvanceReap(p, o).next, AdvanceReap(p, o).fx)
  {
  }

  lemma ReapKind(p: Proc, o: Obs)
    requires ReapPc(p.pc)
    ensures KeepsKind(p, AdvanceReap(p, o).next) && !AdvanceReap(p, o).next.pc.PutForward?
  {
  }

  lemma ReapAcquires(st: State, p: Proc, o: Obs)
    requires ReapPc(p.pc) && Enabled(st, p, o) && !o.Cancelled?
    ensures Acquires(st, p, AdvanceReap(p, o).next)
  {
  }

  lemma ReapShape(st: State, p: Proc, o: Obs)
    requires ReapPc(p.pc) && Enabled(st, p, o) && !o.Cancelled?
    ensures Shape(st, p, o, AdvanceReap(p, o))
  {
    hide AdvanceReap, Enabled, Acquires, KeepsKind, FxShape;
    ReapFx(p, o);
    ReapKind(p, o);
    ReapAcquires(st, p, o);
  }

  lemma CancelShape(st: State, p: Proc, applied: bool)
    ensures Shape(st, p, Cancelled(applied), Move(Unwound(p), When(applied, Sent(p))))
  {
  }

  lemma AdvanceShape(c: Config, st: State, p: Proc, o: Obs)
    requires Enabled(st, p, o)
    ensures Shape(st, p, o, Advance(c, st.now, p, o))
  {
    if o.Cancelled? {
      CancelShape(st, p, o.applied);
    } else if EndPc(p.pc) {
      EndShape(st, p, o);
    } else if ReapPc(p.pc) {
      ReapShape(st, p, o);
    } else if p.pc.PutForward? || InSetup(p.pc) {
      SetupFx(p, o);
      SetupKind(st, p, o);
    } else {
      RouteFx(c, st.now, p, o);
      RouteKind(c, st.now, p, o);
      RouteAcquires(c, st, p, o);
    }
  }

  /** The call is reusing the sandbox it read from the routing key. */
  predicate Reusing(pc: Pc) {
    pc.Refresh? || pc.Ensure? || pc.Reset?
  }

  /** The order of the control points: how a call comes to reuse, create, set up and return a sandbox. */
  predicate PathShape(st: State, p: Proc, o: Obs, m: Move) {
    && (Reusing(m.next.pc) ==>
          || (p.pc.Lookup? && Bound(st, p.key) == Some(m.next.sid))
          || (Reusing(p.pc) && m.next.sid == p.sid))
    && (m.next.pc.Create? ==>
          || (p.pc.Lookup? && (o.Lost? || Bound(st, p.key) == None))
          || (p.pc.Refresh? && o.Lost?)
          || (p.pc.Reset? && (Landed(o) ==> m.fx == Unbind(p.key))))
    && (InSetup(m.next.pc) ==> m.next.sid == p.sid && (p.pc.PutForward? || InSetup(p.pc)) && !m.fx.Unbind?)
    && (p.pc.PutForward? && !o.Cancelled? ==> m.next == p.(pc := PutIndex))
    && (InSetup(p.pc) && !InSetup(m.next.pc) && !o.Cancelled? ==>
          || (p.pc.CheckBoot? && p.sid in st.flags)
          || p.pc.Mark?
          || (p.pc.Rollback? && (Landed(o) ==> m.fx == Unbind(p.key))))
    && (m.next.pc.Mark? ==> m.fx == Booted(p.sid))
    && (m.next.pc.Reset? ==> o.NotFound?) && (m.next.pc.Rollback? ==> o.Error?)
    && (m.next.ok ==> m.next.sid == p.sid && (p.ok || Reusing(p.pc) || p.pc.Mark? || (p.pc.CheckBoot? && p.sid in st.flags)))
  }

  lemma RoutePath(c: Config, st: State, p: Proc, o: Obs)
    requires CallPc(p.pc) && !p.pc.PutForward? && !InSetup(p.pc) && Enabled(st, p, o) && !o.Cancelled?
    requires OkLate(p)
    ensures PathShape(st, p, o, AdvanceRoute(c, st.now, p, o))
  {
  }

  lemma SetupPath(st: State, p: Proc, o: Obs)
    requires (p.pc.PutForward? || InSetup(p.pc)) && Enabled(st, p, o) && !o.Cancelled?
    ensures PathShape(st, p, o, AdvanceSetup(p, o))
  {
  }

  lemma OtherPath(st: State, p: Proc, o: Obs, m: Move)
    requires !CallPc(p.pc) && !p.ok && Shape(st, p, o, m)
    ensures PathShape(st, p, o, m)
  {
  }

  lemma CancelPath(st: State, p: Proc, applied: bool)
    ensures PathShape(st, p, Cancelled(applied), Move(Unwound(p), When(applied, Sent(p))))
  {
  }

  lemma AdvancePath(c: Config, st: State, p: Proc, o: Obs)
    requires Enabled(st, p, o) && OkLate(p)
    ensures PathShape(st, p, o, Advance(c, st.now, p, o))
  {
    if o.Cancelled? {
      CancelPath(st, p, o.applied);
    } else if EndPc(p.pc) || ReapPc(p.pc) {
      AdvanceShape(c, st, p, o);
      OtherPath(st, p, o, Advance(c, st.now, p, o));
    } else if p.pc.PutForward? || InSetup(p.pc) {
      SetupPath(st, p, o);
    } else {
      RoutePath(c, st, p, o);
    }
  }

  // ------------------------------------------------------------------- the environment

  /** What happens besides the steps of processes binds, indexes and flags nothing, and forgets no history. */
  predicate Frame(st: State, t: State) {
    && st.now <= t.now
    && (forall k :: k in t.forward ==> k in st.forward && t.forward[k] == st.forward[k])
    && (forall s :: s in t.index ==> s in st.index && t.index[s] == st.index[s])
    && (forall s :: s in st.owner ==> s in t.owner && t.owner[s] == st.owner[s])
    && (forall s :: s in t.live ==> s in st.live || s !in st.owner)
    && st.strays <= t.strays && (forall s :: s in t.strays && s !in st.strays ==> s !in st.owner && s in t.owner)
    && t.flags <= st.flags && t.booted == st.booted && t.issued == st.issued && t.announced == st.announced
    && t.touched == st.touched && t.dropped == st.dropped && t.served == st.served
  }

  /** A process as it was, dead, or new. */
  predicate Survivor(st: State, pid: Pid, q: Proc) {
    if pid in st.procs then q == st.procs[pid] || q == st.procs[pid].(pc := Gone, ok := false) else Starting(q)
  }

  lemma EnvironmentFrame(c: Config, st: State, e: Event)
    requires Can(st, e) && !e.Do?
    ensures Frame(st, Apply(c, st, e))
  {
    hide Advance, Commit, Enabled;
  }

  lemma EnvironmentSurvivors(c: Config, st: State, e: Event)
    requires Can(st, e) && !e.Do?
    ensures forall pid :: pid in Apply(c, st, e).procs ==> Survivor(st, pid, Apply(c, st, e).procs[pid])
  {
    hide Advance, Commit, Enabled;
  }

  /** Where a process of the next state comes from. */
  lemma ProcsAfter(c: Config, st: State, e: Event, pid: Pid)
    requires Can(st, e) && pid in Apply(c, st, e).procs
    ensures var q := Apply(c, st, e).procs[pid];
            || (pid in st.procs && (q == st.procs[pid] || q == st.procs[pid].(pc := Gone, ok := false)))
            || (e == Spawn(pid, q) && Starting(q))
            || (e.Do? && e.pid == pid && q == Advance(c, st.now, st.procs[pid], e.obs).next)
  {
  }
}
