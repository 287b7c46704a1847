/**
  * What every step keeps, whatever is lost, lapses, is cancelled or dies: a routing
  * key, an index entry and a process only ever name a sandbox created for that key.
  */
module Isolation {
  import opened Options
  import opened Routing
  import opened Protocol
  import opened Moves

  predicate Owned(st: State, s: Sid, k: Key) {
    s in st.owner && st.owner[s] == k
  }

  ghost predicate Inv(st: State) {
    && (forall k :: k in st.forward ==> Owned(st, st.forward[k].sid, k))
    && (forall s :: s in st.index ==> Owned(st, s, st.index[s]))
    && (forall pid :: pid in st.procs && Holding(st.procs[pid]) ==> Owned(st, st.procs[pid].sid, st.procs[pid].key))
    && (forall x :: x in st.served ==> Owned(st, x.sid, x.key))
  }

  /** An effect that names a sandbox names its owner, and a new sandbox is new. */
  predicate FxOwned(st: State, f: Fx) {
    match f
    case BindTo(k, s, _) => Owned(st, s, k)
    case PutMeta(s, k, _) => Owned(st, s, k)
    case Serving(k, s) => Owned(st, s, k)
    case Provision(s, _) => s !in st.owner
    case _ => true
  }

  predicate MoveOwned(st: State, m: Move) {
    && FxOwned(st, m.fx)
    && (Holding(m.next) ==> Owned(st, m.next.sid, m.next.key) || m.fx == Provision(m.next.sid, m.next.key))
  }

  lemma AdvanceOwned(c: Config, st: State, pid: Pid, o: Obs)
    requires Inv(st) && pid in st.procs && Enabled(st, st.procs[pid], o)
    ensures MoveOwned(st, Advance(c, st.now, st.procs[pid], o))
  {
    AdvanceShape(c, st, st.procs[pid], o);
    ShapeOwned(st, pid, o, Advance(c, st.now, st.procs[pid], o));
  }

  lemma ShapeOwned(st: State, pid: Pid, o: Obs, m: Move)
    requires Inv(st) && pid in st.procs && Shape(st, st.procs[pid], o, m)
    ensures MoveOwned(st, m)
  {
  }

  lemma CommitKeepsOwners(c: Config, st: State, pid: Pid, rid: Rid, f: Fx)
    requires FxOwned(st, f)
    ensures Commit(c, st, pid, rid, f).procs == st.procs
    ensures forall s, k :: Owned(st, s, k) || f == Provision(s, k) ==> Owned(Commit(c, st, pid, rid, f), s, k)
  {
  }

  /** What an effect writes into the stores names its owner. */
  lemma CommitWritesOwned(c: Config, st: State, pid: Pid, rid: Rid, f: Fx)
    requires Inv(st) && FxOwned(st, f)
    ensures var t := Commit(c, st, pid, rid, f);
            && (forall k :: k in t.forward ==> Owned(st, t.forward[k].sid, k))
            && (forall s :: s in t.index ==> Owned(st, s, t.index[s]))
            && (forall x :: x in t.served ==> Owned(st, x.sid, x.key))
  {
  }

  lemma CommitKeepsInv(c: Config, st: State, pid: Pid, rid: Rid, f: Fx)
    requires Inv(st) && FxOwned(st, f)
    ensures Inv(Commit(c, st, pid, rid, f)) && Commit(c, st, pid, rid, f).procs == st.procs
    ensures forall s, k :: Owned(st, s, k) || f == Provision(s, k) ==> Owned(Commit(c, st, pid, rid, f), s, k)
  {
    hide Commit, FxOwned, Owned;
    CommitKeepsOwners(c, st, pid, rid, f);
    CommitWritesOwned(c, st, pid, rid, f);
  }

  lemma ReplaceKeepsInv(st: State, pid: Pid, p: Proc)
    requires Inv(st) && (Holding(p) ==> Owned(st, p.sid, p.key))
    ensures Inv(st.(procs := st.procs[pid := p]))
  {
  }

  lemma MoveKeepsInv(c: Config, st: State, pid: Pid, m: Move)
    requires Inv(st) && MoveOwned(st, m)
    ensures Inv(After(c, st, pid, m))
  {
    CommitKeepsInv(c, st, pid, m.next.rid, m.fx);
    ReplaceKeepsInv(Commit(c, st, pid, m.next.rid, m.fx), pid, m.next);
  }

  lemma EnvironmentKeepsInv(c: Config, st: State, e: Event)
    requires Inv(st) && Can(st, e) && !e.Do?
    ensures Inv(Apply(c, st, e))
  {
    hide Apply, Can;
    EnvironmentFrame(c, st, e);
    EnvironmentSurvivors(c, st, e);
  }

  lemma StepKeepsInv(c: Config, st: State, e: Event)
    requires Inv(st) && Can(st, e)
    ensures Inv(Apply(c, st, e))
  {
    if e.Do? {
      AdvanceOwned(c, st, e.pid, e.obs);
      MoveKeepsInv(c, st, e.pid, Advance(c, st.now, st.procs[e.pid], e.obs));
    } else {
      EnvironmentKeepsInv(c, st, e);
    }
  }

  /** A sandbox keeps its owner and never becomes a stray, and commands that ran stay recorded. */
  predicate Extends(st: State, t: State) {
    && (forall s :: s in st.owner && s in t.strays ==> s in st.strays)
    && (forall s :: s in st.owner ==> s in t.owner && t.owner[s] == st.owner[s])
    && st.served <= t.served
  }

  lemma CommitExtends(c: Config, st: State, pid: Pid, rid: Rid, f: Fx)
    requires FxOwned(st, f)
    ensures Extends(st, Commit(c, st, pid, rid, f))
  {
  }

  lemma StepExtends(c: Config, st: State, e: Event)
    requires Inv(st) && Can(st, e)
    ensures Extends(st, Apply(c, st, e))
  {
    if e.Do? {
      var m := Advance(c, st.now, st.procs[e.pid], e.obs);
      AdvanceOwned(c, st, e.pid, e.obs);
      CommitExtends(c, st, e.pid, m.next.rid, m.fx);
    }
  }

  lemma {:induction false} RunKeepsInv(c: Config, A: set<Assumption>, st: State, es: seq<Event>, t: State)
    requires Inv(st) && IsRun(c, A, st, es, t)
    ensures Inv(t) && Extends(st, t)
    decreases |es|
  {
    hide Apply, Inv;
    if es != [] {
      StepKeepsInv(c, st, es[0]);
      StepExtends(c, st, es[0]);
      RunKeepsInv(c, A, Apply(c, st, es[0]), es[1..], t);
    }
  }

  /**
    * Never-rebind: in every run from the empty system, under any assumptions or none, a
    * routing key names a sandbox created for that key, a call returns only such a
    * sandbox, and every command ran in one. No later step changes who it belongs to.
    */
  lemma NeverRebind(c: Config, A: set<Assumption>, before: seq<Event>, st: State, after: seq<Event>, t: State)
    requires IsRun(c, A, Init(), before, st) && IsRun(c, A, st, after, t)
    ensures forall k :: Bound(st, k).Some? ==> Owned(t, Bound(st, k).value, k)
    ensures forall pid :: pid in st.procs && st.procs[pid].ok ==> Owned(t, st.procs[pid].sid, st.procs[pid].key)
    ensures forall x :: x in st.served ==> x in t.served && Owned(t, x.sid, x.key)
  {
    RunKeepsInv(c, A, Init(), before, st);
    RunKeepsInv(c, A, st, after, t);
  }
}
