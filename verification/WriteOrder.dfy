/**
  * What the order of the writes in `get_or_create` buys: the routing key is written
  * before the index entry, so an indexed sandbox is past its only first binding.
  */
module WriteOrder {
  import opened Options
  import opened Routing
  import opened Protocol
  import opened Moves
  import opened Isolation

  /** The sandbox a process holds is past its routing-key write, unless the process is about to do it. */
  predicate Issued(st: State, p: Proc) {
    && (Holding(p) ==> if p.pc.PutForward? then p.sid !in st.issued && p.sid !in st.strays else p.sid in st.issued)
    && OkLate(p)
  }

  predicate Creator(st: State, pid: Pid) {
    pid in st.procs && st.procs[pid].pc.PutForward?
  }

  ghost predicate ProcsOrdered(st: State) {
    && (forall pid :: pid in st.procs ==> Issued(st, st.procs[pid]))
    && (forall a, b :: Creator(st, a) && Creator(st, b) && st.procs[a].sid == st.procs[b].sid ==> a == b)
  }

  ghost predicate StoreOrdered(st: State) {
    && (forall k :: k in st.forward ==> st.forward[k].sid in st.issued)
    && (forall s :: s in st.index ==> s in st.issued)
    && (forall s :: s in st.touched ==> s in st.issued)
    && st.announced <= st.issued
    && st.issued !! st.strays
    && (forall s :: s in st.issued || s in st.strays ==> s in st.owner)
  }

  /** The expiry of a routing key dates from the last time it was written for its sandbox. */
  ghost predicate Dated(c: Config, st: State) {
    forall k :: k in st.forward ==>
      && st.forward[k].sid in st.touched
      && st.forward[k].expires == st.touched[st.forward[k].sid] + c.sessionTtl
      && st.touched[st.forward[k].sid] <= st.now
  }

  ghost predicate Ordered(c: Config, st: State) {
    Inv(st) && ProcsOrdered(st) && StoreOrdered(st) && Dated(c, st)
  }

  predicate FxOrdered(st: State, f: Fx) {
    match f
    case BindTo(_, s, _) => s !in st.strays
    case PutMeta(s, _, _) => s in st.issued
    case _ => true
  }

  lemma ShapeOrdered(st: State, p: Proc, o: Obs, m: Move)
    requires StoreOrdered(st) && Issued(st, p) && Shape(st, p, o, m)
    ensures FxOrdered(st, m.fx)
  {
  }

  lemma CommitOrdersStore(c: Config, st: State, pid: Pid, rid: Rid, f: Fx)
    requires Inv(st) && StoreOrdered(st) && FxOwned(st, f) && FxOrdered(st, f)
    ensures StoreOrdered(Commit(c, st, pid, rid, f))
  {
  }

  lemma CommitDates(c: Config, st: State, pid: Pid, rid: Rid, f: Fx)
    requires Inv(st) && Dated(c, st) && FxOwned(st, f)
    ensures Dated(c, Commit(c, st, pid, rid, f))
  {
  }

  /** How an effect changes the sets that the processes are measured against. */
  lemma CommitIssues(c: Config, st: State, pid: Pid, rid: Rid, f: Fx)
    ensures var t := Commit(c, st, pid, rid, f);
            && t.issued == st.issued + (if f.BindTo? then {f.sid} else {})
            && t.strays == st.strays && t.procs == st.procs
  {
  }

  lemma MoveOrdersProcs(c: Config, st: State, pid: Pid, o: Obs, m: Move)
    requires Inv(st) && ProcsOrdered(st) && StoreOrdered(st) && pid in st.procs
    requires Shape(st, st.procs[pid], o, m)
    ensures ProcsOrdered(After(c, st, pid, m))
  {
    hide Commit;
    CommitIssues(c, st, pid, m.next.rid, m.fx);
    assert Issued(st, st.procs[pid]);
  }

  lemma EnvironmentOrdersStore(c: Config, st: State, e: Event)
    requires StoreOrdered(st) && Dated(c, st) && Can(st, e) && !e.Do?
    requires Inv(st)
    ensures StoreOrdered(Apply(c, st, e)) && Dated(c, Apply(c, st, e))
  {
    hide Apply, Can;
    EnvironmentFrame(c, st, e);
  }

  lemma EnvironmentOrdersProcs(c: Config, st: State, e: Event)
    requires Inv(st) && ProcsOrdered(st) && Can(st, e) && !e.Do?
    ensures ProcsOrdered(Apply(c, st, e))
  {
    hide Apply, Can;
    EnvironmentFrame(c, st, e);
    EnvironmentSurvivors(c, st, e);
  }

  lemma StepKeepsOrdered(c: Config, st: State, e: Event)
    requires Ordered(c, st) && Can(st, e)
    ensures Ordered(c, Apply(c, st, e))
  {
    if e.Do? {
      var m := Advance(c, st.now, st.procs[e.pid], e.obs);
      AdvanceShape(c, st, st.procs[e.pid], e.obs);
      ShapeOwned(st, e.pid, e.obs, m);
      ShapeOrdered(st, st.procs[e.pid], e.obs, m);
      StepKeepsInv(c, st, e);
      CommitOrdersStore(c, st, e.pid, m.next.rid, m.fx);
      CommitDates(c, st, e.pid, m.next.rid, m.fx);
      MoveOrdersProcs(c, st, e.pid, e.obs, m);
    } else {
      EnvironmentKeepsInv(c, st, e);
      EnvironmentOrdersStore(c, st, e);
      EnvironmentOrdersProcs(c, st, e);
    }
  }

  lemma StartsOrdered(c: Config)
    ensures Ordered(c, Init())
  {
  }

  lemma {:induction false} RunKeepsOrdered(c: Config, A: set<Assumption>, st: State, es: seq<Event>, t: State)
    requires Ordered(c, st) && IsRun(c, A, st, es, t)
    ensures Ordered(c, t)
    decreases |es|
  {
    hide Apply, Ordered;
    if es != [] {
      StepKeepsOrdered(c, st, es[0]);
      RunKeepsOrdered(c, A, Apply(c, st, es[0]), es[1..], t);
    }
  }
}
