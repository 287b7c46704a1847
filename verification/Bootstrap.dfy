/**
  * Every client that `get_or_create` returns is bootstrapped, although a hit skips the
  * bootstrap and a failed bootstrap leaves its sandbox running.
  */
module Bootstrap {
  import opened Options
  import opened Routing
  import opened Protocol
  import opened Moves
  import opened WriteOrder
  import opened SessionWindow

  /** A call that reuses, marks or returns a sandbox has a bootstrapped one. */
  predicate Ready(st: State, k: Key, p: Proc) {
    p.key == k && (Reusing(p.pc) || p.pc.Mark? || p.ok) ==> p.sid in st.booted
  }

  /** The sandbox the key leads to is bootstrapped, or somebody is at it. */
  ghost predicate KeyReady(st: State, k: Key) {
    Bound(st, k).Some? ==> Bound(st, k).value in st.booted || exists pid :: Setter(st, k, pid)
  }

  ghost predicate Sound(st: State, k: Key) {
    && st.flags <= st.booted
    && (forall pid :: pid in st.procs ==> Ready(st, k, st.procs[pid]) && OkLate(st.procs[pid]))
    && (forall pid :: pid in st.procs && st.procs[pid].pc.Mark? ==> st.procs[pid].sid in st.booted)
    && KeyReady(st, k)
  }

  lemma CommitBoots(c: Config, st: State, pid: Pid, rid: Rid, f: Fx)
    ensures var t := Commit(c, st, pid, rid, f);
            && t.booted == st.booted + (if f.Booted? then {f.sid} else {})
            && t.flags == st.flags + (if f.Flag? then {f.sid} else {})
            && t.procs == st.procs
  {
  }

  /** Reading the routing key inside the critical section yields a bootstrapped sandbox. */
  lemma HitIsReady(st: State, k: Key, pid: Pid)
    requires Sound(st, k) && Alone(st, k) && Inside(st, k, pid) && !InSetup(st.procs[pid].pc) && Bound(st, k).Some?
    ensures Bound(st, k).value in st.booted
  {
    if w :| Setter(st, k, w) {
      assert Inside(st, k, w);
    }
  }

  lemma MoveReady(c: Config, st: State, pid: Pid, o: Obs, m: Move, k: Key)
    requires Sound(st, k) && Alone(st, k) && pid in st.procs
    requires Shape(st, st.procs[pid], o, m) && PathShape(st, st.procs[pid], o, m)
    ensures Ready(After(c, st, pid, m), k, m.next)
    ensures m.next.pc.Mark? ==> m.next.sid in After(c, st, pid, m).booted
  {
    var p := st.procs[pid];
    CommitBoots(c, st, pid, m.next.rid, m.fx);
    assert Ready(st, k, p);
    if p.key == k && p.pc.Lookup? && Bound(st, k).Some? {
      assert Inside(st, k, pid);
      HitIsReady(st, k, pid);
    }
  }

  /** Who leaves the setup of an unbootstrapped sandbox behind, if not by abandoning it, unbinds the key. */
  lemma LeavesClean(c: Config, st: State, pid: Pid, o: Obs, k: Key)
    requires Sound(st, k) && Can(st, Do(pid, o)) && Unfinished(st, k, pid) && !Abandons(st, Do(pid, o), k)
    ensures var m := Advance(c, st.now, st.procs[pid], o);
            (InSetup(m.next.pc) && m.next.sid == st.procs[pid].sid && m.next.key == k && !m.fx.Unbind? && !m.fx.BindTo?)
            || m.fx == Unbind(k)
  {
  }

  /** Who binds the key goes on to set the sandbox up, or has found it bootstrapped. */
  lemma BindsReady(st: State, pid: Pid, o: Obs, m: Move, k: Key)
    requires pid in st.procs && Ready(st, k, st.procs[pid]) && !Abandons(st, Do(pid, o), k)
    requires Shape(st, st.procs[pid], o, m) && PathShape(st, st.procs[pid], o, m)
    ensures m.fx.BindTo? && m.fx.landed && m.fx.key == k ==>
              m.fx.sid in st.booted || (InSetup(m.next.pc) && m.next.sid == m.fx.sid && m.next.key == k)
  {
  }

  lemma MoveKeepsKeyReady(c: Config, st: State, pid: Pid, o: Obs, k: Key)
    requires Sound(st, k) && Can(st, Do(pid, o)) && !Abandons(st, Do(pid, o), k)
    ensures KeyReady(After(c, st, pid, Advance(c, st.now, st.procs[pid], o)), k)
  {
    var m := Advance(c, st.now, st.procs[pid], o);
    var t := After(c, st, pid, m);
    assert Ready(st, k, st.procs[pid]) && OkLate(st.procs[pid]);
    AdvanceShape(c, st, st.procs[pid], o);
    AdvancePath(c, st, st.procs[pid], o);
    CommitBoots(c, st, pid, m.next.rid, m.fx);
    CommitForward(c, st, pid, m.next.rid, m.fx, k);
    BindsReady(st, pid, o, m, k);
    if Bound(t, k).Some? && Bound(t, k).value !in t.booted {
      if m.fx.BindTo? && m.fx.landed && m.fx.key == k {
        assert Setter(t, k, pid);
      } else {
        var w :| Setter(st, k, w);
        if w == pid {
          LeavesClean(c, st, pid, o, k);
        }
        assert Setter(t, k, w);
      }
    }
  }

  lemma DoKeepsSound(c: Config, st: State, pid: Pid, o: Obs, k: Key)
    requires Sound(st, k) && Alone(st, k) && Can(st, Do(pid, o)) && !Abandons(st, Do(pid, o), k)
    ensures Sound(After(c, st, pid, Advance(c, st.now, st.procs[pid], o)), k)
  {
    var m := Advance(c, st.now, st.procs[pid], o);
    AdvanceShape(c, st, st.procs[pid], o);
    AdvancePath(c, st, st.procs[pid], o);
    MoveReady(c, st, pid, o, m, k);
    MoveKeepsKeyReady(c, st, pid, o, k);
    MoveKeepsReady(c, st, pid, o, m, k);
  }

  lemma MoveKeepsReady(c: Config, st: State, pid: Pid, o: Obs, m: Move, k: Key)
    requires Sound(st, k) && pid in st.procs && Shape(st, st.procs[pid], o, m)
    requires Ready(After(c, st, pid, m), k, m.next) && KeyReady(After(c, st, pid, m), k)
    requires m.next.pc.Mark? ==> m.next.sid in After(c, st, pid, m).booted
    ensures Sound(After(c, st, pid, m), k)
  {
    CommitBoots(c, st, pid, m.next.rid, m.fx);
    assert OkLate(st.procs[pid]);
    assert forall q :: q in st.procs ==> Ready(st, k, st.procs[q]);
  }

  lemma EnvironmentKeepsReady(c: Config, st: State, e: Event, k: Key, pid: Pid)
    requires Sound(st, k) && Can(st, e) && !e.Do? && pid in Apply(c, st, e).procs
    ensures var t := Apply(c, st, e);
            Ready(t, k, t.procs[pid]) && OkLate(t.procs[pid]) && (t.procs[pid].pc.Mark? ==> t.procs[pid].sid in t.booted)
  {
    ProcsAfter(c, st, e, pid);
    assert pid in st.procs ==> Ready(st, k, st.procs[pid]);
  }

  lemma EnvironmentKeepsKeyReady(c: Config, st: State, e: Event, k: Key)
    requires KeyReady(st, k) && Can(st, e) && !e.Do? && !Abandons(st, e, k)
    ensures KeyReady(Apply(c, st, e), k)
  {
    var t := Apply(c, st, e);
    if Bound(t, k).Some? && Bound(t, k).value !in t.booted {
      var w :| Setter(st, k, w);
      assert Unfinished(st, k, w);
      assert Setter(t, k, w);
    }
  }

  lemma EnvironmentKeepsSound(c: Config, st: State, e: Event, k: Key)
    requires Sound(st, k) && Can(st, e) && !e.Do? && !Abandons(st, e, k)
    ensures Sound(Apply(c, st, e), k)
  {
    forall pid | pid in Apply(c, st, e).procs
      ensures var t := Apply(c, st, e);
              Ready(t, k, t.procs[pid]) && OkLate(t.procs[pid]) && (t.procs[pid].pc.Mark? ==> t.procs[pid].sid in t.booted)
    {
      EnvironmentKeepsReady(c, st, e, k, pid);
    }
    EnvironmentKeepsKeyReady(c, st, e, k);
  }

  lemma StepKeepsSound(c: Config, st: State, e: Event, k: Key)
    requires Sound(st, k) && Alone(st, k) && Can(st, e) && !Abandons(st, e, k)
    ensures Sound(Apply(c, st, e), k)
  {
    if e.Do? {
      DoKeepsSound(c, st, e.pid, e.obs, k);
    } else {
      EnvironmentKeepsSound(c, st, e, k);
    }
  }

  lemma {:induction false} RunKeepsSound(c: Config, A: set<Assumption>, st: State, es: seq<Event>, t: State, k: Key)
    requires Sound(st, k) && IsRun(c, A, st, es, t) && {Exclusive(k), SetupKept(k)} <= A
    ensures Sound(t, k)
    decreases |es|
  {
    hide Apply, Sound, Abandons;
    if es != [] {
      StepKeepsSound(c, st, es[0], k);
      RunKeepsSound(c, A, Apply(c, st, es[0]), es[1..], t, k);
    }
  }

  lemma StartsSound(k: Key)
    ensures Sound(Init(), k)
  {
  }

  /**
    * Bootstrapped on return: while calls on the key exclude each other and nobody abandons a
    * setup, every call that returns a client returns one whose bootstrap succeeded, and
    * whenever nobody is inside the critical section of the key, the sandbox it leads to is
    * bootstrapped, whatever failed before.
    */
  lemma BootstrappedOnReturn(c: Config, A: set<Assumption>, es: seq<Event>, t: State, k: Key)
    requires IsRun(c, A, Init(), es, t) && {Exclusive(k), SetupKept(k)} <= A
    ensures forall pid :: pid in t.procs && t.procs[pid].key == k && t.procs[pid].ok ==> t.procs[pid].sid in t.booted
    ensures (forall pid :: !Inside(t, k, pid)) && Bound(t, k).Some? ==> Bound(t, k).value in t.booted
  {
    StartsSound(k);
    RunKeepsSound(c, A, Init(), es, t, k);
    assert forall pid :: pid in t.procs ==> Ready(t, k, t.procs[pid]);
    if (forall pid :: !Inside(t, k, pid)) && Bound(t, k).Some? && Bound(t, k).value !in t.booted {
      var w :| Setter(t, k, w);
      assert Inside(t, k, w);
    }
  }

  // ------------------------------------------------------- exactly what must not happen

  /** A cancelled or failed setter, and a creator cancelled as its binding lands, leave the key bound as it is. */
  lemma AbandonedByStep(c: Config, st: State, pid: Pid, o: Obs, k: Key)
    requires Sound(st, k) && Can(st, Do(pid, o)) && Abandons(st, Do(pid, o), k) && c.sessionTtl > 0
    ensures var t := Apply(c, st, Do(pid, o));
            && Inside(st, k, pid) && !InSetup(t.procs[pid].pc) && t.booted == st.booted
            && Bound(t, k) == Some(st.procs[pid].sid) && st.procs[pid].sid !in st.booted
            && (forall q :: q != pid && q in t.procs ==> q in st.procs && t.procs[q] == st.procs[q])
  {
    hide Advance, Enabled, Commit, Abandons, Sound;
    var m := Advance(c, st.now, st.procs[pid], o);
    CommitBoots(c, st, pid, m.next.rid, m.fx);
    CommitForward(c, st, pid, m.next.rid, m.fx, k);
    GivesUp(c, st, pid, o, k);
  }

  /** It leaves the setup, and what it may still write binds the key to the same sandbox or leaves the binding alone. */
  lemma GivesUp(c: Config, st: State, pid: Pid, o: Obs, k: Key)
    requires Sound(st, k) && Can(st, Do(pid, o)) && Abandons(st, Do(pid, o), k)
    ensures var m := Advance(c, st.now, st.procs[pid], o);
            && !InSetup(m.next.pc) && !m.fx.Booted? && !m.fx.Unbind? && Inside(st, k, pid)
            && st.procs[pid].sid !in st.booted
            && (if st.procs[pid].pc.PutForward? then m.fx == BindTo(k, st.procs[pid].sid, true)
                else !m.fx.BindTo? && Bound(st, k) == Some(st.procs[pid].sid))
  {
  }

  lemma AbandonedByCrash(c: Config, st: State, r: Rid, k: Key)
    requires Abandons(st, Crash(r), k)
    ensures var t := Apply(c, st, Crash(r));
            exists pid :: Unfinished(st, k, pid) && t.procs[pid].pc.Gone? && t.booted == st.booted && Bound(t, k) == Bound(st, k)
              && (forall q :: q in t.procs ==> q in st.procs && (t.procs[q] == st.procs[q] || t.procs[q].pc.Gone?))
  {
    var pid :| Unfinished(st, k, pid) && st.procs[pid].rid == r;
    assert Apply(c, st, Crash(r)).procs[pid].pc.Gone?;
  }

  /** With the only setter gone, nobody is left to bootstrap the sandbox the key leads to. */
  lemma NobodyFinishes(st: State, t: State, k: Key, pid: Pid)
    requires Alone(st, k) && Inside(st, k, pid) && !Setter(t, k, pid)
    requires forall q :: q != pid && Setter(t, k, q) ==> Inside(st, k, q)
    requires Bound(t, k).Some? && Bound(t, k).value !in t.booted
    ensures !KeyReady(t, k)
  {
  }

  /**
    * The exact condition: a step breaks what keeps every returned client bootstrapped if and
    * only if it abandons a setup. Other cancellations, other crashes and other lost requests
    * do no harm.
    */
  lemma SoundIffNotAbandoned(c: Config, st: State, e: Event, k: Key)
    requires Sound(st, k) && Alone(st, k) && Can(st, e) && c.sessionTtl > 0
    ensures Sound(Apply(c, st, e), k) <==> !Abandons(st, e, k)
  {
    var t := Apply(c, st, e);
    if !Abandons(st, e, k) {
      StepKeepsSound(c, st, e, k);
    } else if e.Do? {
      AbandonedByStep(c, st, e.pid, e.obs, k);
      NobodyFinishes(st, t, k, e.pid);
    } else {
      AbandonedByCrash(c, st, e.rid, k);
      var pid :| Unfinished(st, k, pid) && t.procs[pid].pc.Gone?;
      NobodyFinishes(st, t, k, pid);
    }
  }
}
