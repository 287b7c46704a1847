/**
  * Runs of the protocol in which one process moves at a time: what such a process may do
  * next, control point by control point, and what it does to the stores.
  */
module Solo {
  import opened Options
  import opened Routing
  import opened TokenLease
  import opened Protocol
  import opened Exclusion

  datatype Store = Store(forward: map<Key, Entry>, index: map<Sid, Key>, flags: set<Sid>, live: set<Sid>)

  lemma {:induction false} RunGrows(c: Config, A: set<Assumption>, st: State, es: seq<Event>, t: State, e: Event)
    requires IsRun(c, A, st, es, t) && Can(t, e) && forall a :: a in A ==> Respects(c, a, t, e)
    ensures IsRun(c, A, st, es + [e], Apply(c, t, e))
    decreases |es|
  {
    if es == [] {
      assert [e][1..] == [];
      assert IsRun(c, A, Apply(c, t, e), [], Apply(c, t, e));
      assert es + [e] == [e];
    } else {
      RunGrows(c, A, Apply(c, st, es[0]), es[1..], t, e);
      assert (es + [e])[1..] == es[1..] + [e];
    }
  }

  /** What holds of the environment in the runs of one replica; a reliable one abandons no setup. */
  predicate Promised(reliable: bool, a: Assumption) {
    (a.OneReplica? && a.rid == 0) || (reliable && a.SetupKept?)
  }

  ghost predicate AllPromised(reliable: bool, A: set<Assumption>) {
    forall a :: a in A ==> Promised(reliable, a)
  }

  ghost predicate Reached(c: Config, reliable: bool, log: seq<Event>, t: State) {
    forall A :: AllPromised(reliable, A) ==> IsRun(c, A, Init(), log, t)
  }

  /** The process `me` is at `p`, and every other process is finished. */
  ghost predicate At(c: Config, reliable: bool, log: seq<Event>, t: State, me: Pid, p: Proc) {
    && Reached(c, reliable, log, t)
    && me in t.procs && t.procs[me] == p && p.rid == 0 && !p.got
    && t.local == (if LocalHeld(p.pc) then map[(0, p.key) := me] else map[])
    && forall pid :: pid in t.procs ==> pid < |log| && (pid == me || t.procs[pid].pc.Gone?)
  }

  ghost predicate AtRest(c: Config, reliable: bool, log: seq<Event>, t: State) {
    && Reached(c, reliable, log, t) && t.local == map[]
    && forall pid :: pid in t.procs ==> pid < |log| && t.procs[pid].pc.Gone?
  }

  function Shown(t: State): Store {
    Store(t.forward, t.index, t.flags, t.live)
  }

  function Effect(c: Config, now: nat, st: Store, f: Fx): Store {
    match f
    case BindTo(k, s, landed) => if landed then st.(forward := st.forward[k := Entry(s, now + c.sessionTtl)]) else st
    case Unbind(k) => st.(forward := st.forward - {k})
    case PutMeta(s, k, landed) => if landed then st.(index := st.index[s := k]) else st
    case DropMeta(s) => st.(index := st.index - {s})
    case Flag(s) => st.(flags := st.flags + {s})
    case Provision(s, _) => st.(live := st.live + {s})
    case Delete(s) => st.(live := st.live - {s})
    case _ => st
  }

  lemma EffectShown(c: Config, st: State, pid: Pid, rid: Rid, f: Fx)
    ensures Shown(Commit(c, st, pid, rid, f)) == Effect(c, st.now, Shown(st), f)
  {
  }

  lemma StillReached(c: Config, reliable: bool, log: seq<Event>, t: State, e: Event)
    requires Reached(c, reliable, log, t) && Can(t, e)
    requires forall a :: Promised(reliable, a) ==> Respects(c, a, t, e)
    ensures Reached(c, reliable, log + [e], Apply(c, t, e))
  {
    forall A | AllPromised(reliable, A)
      ensures IsRun(c, A, Init(), log + [e], Apply(c, t, e))
    {
      RunGrows(c, A, Init(), log, t, e);
    }
  }

  // --------------------------------------------------------------- the moves of a process

  /** What a move does to the local lock, where there is no Redis lock. */
  predicate LocksMove(p: Proc, m: Move) {
    && m.next.rid == p.rid && (p.got <==> m.next.got) && !m.fx.TakeRedis? && !m.fx.FreeRedis?
    && (LocalHeld(m.next.pc) ==> m.next.key == p.key)
    && (m.fx.TakeLocal? ==> m.fx.key == p.key && !LocalHeld(p.pc) && LocalHeld(m.next.pc))
    && (m.fx.FreeLocal? ==> m.fx.key == p.key && LocalHeld(p.pc) && !LocalHeld(m.next.pc))
    && (!m.fx.TakeLocal? && !m.fx.FreeLocal? ==> (LocalHeld(p.pc) <==> LocalHeld(m.next.pc)))
  }

  /** Told `o`, a process at `p` can move, and makes the move `m`. */
  ghost predicate Does(c: Config, t: State, p: Proc, o: Obs, m: Move) {
    forall pid {:trigger Do(pid, o)} :: pid in t.procs && t.procs[pid] == p ==>
      Enabled(t, t.procs[pid], o) && Advance(c, t.now, t.procs[pid], o) == m
  }

  /** The same, where there is no Redis lock. */
  ghost predicate Makes(c: Config, t: State, p: Proc, o: Obs, m: Move) {
    LocksMove(p, m) && Does(c, t, p, o, m)
  }

  lemma CommitLocks(c: Config, t: State, me: Pid, rid: Rid, f: Fx)
    ensures Commit(c, t, me, rid, f).local ==
              if f.TakeLocal? then t.local[(rid, f.key) := me]
              else if f.FreeLocal? then t.local - {(rid, f.key)} else t.local
  {
  }

  lemma LockMoves(c: Config, t: State, me: Pid, p: Proc, m: Move)
    requires LocksMove(p, m) && p.rid == 0
    requires t.local == (if LocalHeld(p.pc) then map[(0, p.key) := me] else map[])
    ensures After(c, t, me, m).local == (if LocalHeld(m.next.pc) then map[(0, m.next.key) := me] else map[])
  {
    CommitLocks(c, t, me, 0, m.fx);
  }

  /** A setup is cut short. */
  predicate Careless(p: Proc, o: Obs) {
    (o.Cancelled? && (p.pc.PutForward? || InSetup(p.pc))) || (p.pc.Rollback? && o == Lost(false))
  }

  lemma CarefulKeepsPromises(c: Config, reliable: bool, t: State, me: Pid, o: Obs, a: Assumption)
    requires me in t.procs && Enabled(t, t.procs[me], o) && (reliable ==> !Careless(t.procs[me], o)) && Promised(reliable, a)
    ensures Respects(c, a, t, Do(me, o))
  {
  }

  lemma MoveAt(c: Config, reliable: bool, log: seq<Event>, t: State, me: Pid, p: Proc, o: Obs, m: Move)
    requires At(c, reliable, log, t, me, p) && Makes(c, t, p, o, m) && (reliable ==> !Careless(p, o))
    ensures At(c, reliable, log + [Do(me, o)], After(c, t, me, m), me, m.next)
  {
    assert Can(t, Do(me, o)) && Advance(c, t.now, t.procs[me], o) == m;
    forall a | Promised(reliable, a)
      ensures Respects(c, a, t, Do(me, o))
    {
      CarefulKeepsPromises(c, reliable, t, me, o, a);
    }
    StillReached(c, reliable, log, t, Do(me, o));
    LockMoves(c, t, me, p, m);
  }

  /** A call starts. */
  lemma StartsAt(c: Config, reliable: bool, log: seq<Event>, t: State, p: Proc)
    requires AtRest(c, reliable, log, t) && Starting(p) && p.rid == 0
    ensures At(c, reliable, log + [Spawn(|log|, p)], t.(procs := t.procs[|log| := p]), |log|, p) && t.local == map[]
  {
    StillReached(c, reliable, log, t, Spawn(|log|, p));
  }

  /** A call is over. */
  lemma RestsAt(c: Config, reliable: bool, log: seq<Event>, t: State, me: Pid, p: Proc)
    requires At(c, reliable, log, t, me, p) && p.pc.Gone?
    ensures AtRest(c, reliable, log, t)
  {
  }

  /** What else an effect changes. */
  lemma EffectRecorded(c: Config, t: State, pid: Pid, rid: Rid, f: Fx)
    ensures var u := Commit(c, t, pid, rid, f);
            && u.now == t.now
            && u.owner == (if f.Provision? then t.owner[f.sid := f.key] else t.owner)
            && u.booted == (if f.Booted? then t.booted + {f.sid} else t.booted)
            && u.served == (if f.Serving? then t.served + {Service(f.key, f.sid)} else t.served)
  {
  }

  lemma Tells(c: Config, t: State, p: Proc, o: Obs)
    requires Enabled(t, p, o)
    ensures Does(c, t, p, o, Advance(c, t.now, p, o))
  {
  }

  // the Redis lock

  lemma QueueDoes(c: Config, t: State, p: Proc)
    requires p.pc.WaitLocal? && c.distributed && (p.rid, p.key) !in t.local
    ensures Does(c, t, p, Done, Move(p.(pc := WaitRedis), TakeLocal(p.key)))
  {
    Tells(c, t, p, Done);
  }

  lemma AcquireDoes(c: Config, t: State, p: Proc)
    requires p.pc.WaitRedis? && Free(Slot(t, p.key), t.now)
    ensures Does(c, t, p, Done, Move(p.(pc := Lookup, got := true, since := t.now), TakeRedis(p.key)))
  {
    Tells(c, t, p, Done);
  }

  lemma ReleaseDoes(c: Config, t: State, p: Proc)
    requires p.pc.UnlockRedis?
    ensures Does(c, t, p, Done, Move(p.(pc := UnlockLocal), FreeRedis(p.key)))
  {
    Tells(c, t, p, Done);
  }

  lemma CancelDoes(c: Config, t: State, p: Proc, applied: bool)
    requires !p.pc.UnlockLocal? && !p.pc.Gone? && !p.pc.WaitRedis?
    ensures Does(c, t, p, Cancelled(applied), Move(Unwound(p), When(applied, Sent(p))))
  {
    Tells(c, t, p, Cancelled(applied));
  }

  // get_or_create

  lemma EnterMakes(c: Config, t: State, p: Proc)
    requires p.pc.WaitLocal? && !c.distributed && (p.rid, p.key) !in t.local
    ensures Makes(c, t, p, Done, Move(p.(pc := Lookup), TakeLocal(p.key)))
  {
    Tells(c, t, p, Done);
  }

  lemma LookupMakes(c: Config, t: State, p: Proc, o: Obs)
    requires p.pc.Lookup? && (o.Lost? || o == Seen(Bound(t, p.key)))
    ensures Makes(c, t, p, o, Move(if o.Seen? && o.binding.Some? then p.(pc := Refresh, sid := o.binding.value) else p.(pc := Create), Nothing))
  {
    Tells(c, t, p, o);
  }

  lemma RefreshMakes(c: Config, t: State, p: Proc, o: Obs)
    requires p.pc.Refresh? && (o.Done? || o.Lost?)
    ensures Makes(c, t, p, o, Move(p.(pc := if o.Done? then Ensure else Create), BindTo(p.key, p.sid, Landed(o))))
  {
    Tells(c, t, p, o);
  }

  lemma EnsureMakes(c: Config, t: State, p: Proc, o: Obs)
    requires p.pc.Ensure? && (o.Error? || (o.Done? && p.sid in t.live) || (o.NotFound? && p.sid !in t.live))
    ensures Makes(c, t, p, o, Move(if o.NotFound? then p.(pc := Reset) else Leave(p, o.Done?), Nothing))
  {
    Tells(c, t, p, o);
  }

  lemma ResetMakes(c: Config, t: State, p: Proc, o: Obs)
    requires p.pc.Reset? && (o.Done? || o.Lost?)
    ensures Makes(c, t, p, o, Move(p.(pc := Create), When(Landed(o), Unbind(p.key))))
  {
    Tells(c, t, p, o);
  }

  lemma CreateMakes(c: Config, t: State, p: Proc, o: Obs)
    requires p.pc.Create? && (o.Error? || (o.Fresh? && o.id !in t.owner))
    ensures Makes(c, t, p, o, if o.Fresh? then Move(p.(pc := PutForward, sid := o.id), Provision(o.id, p.key))
                              else Move(Leave(p, false), Nothing))
  {
    Tells(c, t, p, o);
  }

  lemma PutForwardMakes(c: Config, t: State, p: Proc, o: Obs)
    requires p.pc.PutForward? && (o.Done? || o.Lost?)
    ensures Makes(c, t, p, o, Move(p.(pc := PutIndex), BindTo(p.key, p.sid, Landed(o))))
  {
    Tells(c, t, p, o);
  }

  lemma PutIndexMakes(c: Config, t: State, p: Proc, o: Obs)
    requires p.pc.PutIndex? && (o.Done? || o.Lost?)
    ensures Makes(c, t, p, o, Move(p.(pc := CheckBoot), PutMeta(p.sid, p.key, Landed(o))))
  {
    Tells(c, t, p, o);
  }

  lemma CheckBootMakes(c: Config, t: State, p: Proc, o: Obs)
    requires p.pc.CheckBoot? && (o.Lost? || (o.Flagged? && (o.flag ==> p.sid in t.flags)))
    ensures Makes(c, t, p, o, Move(if o.Flagged? && o.flag then Leave(p, true) else p.(pc := Boot), Nothing))
  {
    Tells(c, t, p, o);
  }

  lemma BootMakes(c: Config, t: State, p: Proc, o: Obs)
    requires p.pc.Boot? && (o.Error? || (o.Done? && p.sid in t.live))
    ensures Makes(c, t, p, o, if o.Done? then Move(p.(pc := Mark), Booted(p.sid)) else Move(p.(pc := Rollback), Nothing))
  {
    Tells(c, t, p, o);
  }

  lemma MarkMakes(c: Config, t: State, p: Proc, o: Obs)
    requires p.pc.Mark? && (o.Done? || o.Lost?)
    ensures Makes(c, t, p, o, Move(Leave(p, true), When(Landed(o), Flag(p.sid))))
  {
    Tells(c, t, p, o);
  }

  lemma RollbackMakes(c: Config, t: State, p: Proc, o: Obs)
    requires p.pc.Rollback? && (o.Done? || o.Lost?)
    ensures Makes(c, t, p, o, Move(Leave(p, false), When(Landed(o), Unbind(p.key))))
  {
    Tells(c, t, p, o);
  }

  lemma ExitMakes(c: Config, t: State, p: Proc)
    requires p.pc.UnlockLocal?
    ensures Makes(c, t, p, Done, Move(p.(pc := if p.ok then Serve else Gone), FreeLocal(p.key)))
  {
    Tells(c, t, p, Done);
  }

  lemma ServeMakes(c: Config, t: State, p: Proc, o: Obs)
    requires p.pc.Serve? && (o.Done? || o.Error?)
    ensures Makes(c, t, p, o, Move(p.(pc := Gone), When(Landed(o), Serving(p.key, p.sid))))
  {
    Tells(c, t, p, o);
  }

  // end_session

  lemma EPeekMakes(c: Config, t: State, p: Proc, o: Obs)
    requires p.pc.EPeek? && (o.Lost? || o == Seen(Bound(t, p.key)))
    ensures Makes(c, t, p, o, Move(if o.Seen? && o.binding.Some? then p.(pc := EDelete, sid := o.binding.value) else p.(pc := Gone), Nothing))
  {
    Tells(c, t, p, o);
  }

  lemma EDeleteMakes(c: Config, t: State, p: Proc, o: Obs)
    requires p.pc.EDelete? && (o.Error? || o.Cancelled? || (o.Done? && p.sid in t.live) || (o.NotFound? && p.sid !in t.live))
    ensures Makes(c, t, p, o, Move(p.(pc := EUnbind), When(Landed(o), Delete(p.sid))))
  {
    Tells(c, t, p, o);
  }

  lemma EUnbindMakes(c: Config, t: State, p: Proc, o: Obs)
    requires p.pc.EUnbind? && (o.Done? || o.Lost?)
    ensures Makes(c, t, p, o, Move(p.(pc := if o.Done? then EDrop else Gone), When(Landed(o), Unbind(p.key))))
  {
    Tells(c, t, p, o);
  }

  lemma EDropMakes(c: Config, t: State, p: Proc, o: Obs)
    requires p.pc.EDrop? && (o.Done? || o.Lost?)
    ensures Makes(c, t, p, o, Move(p.(pc := Gone), When(Landed(o), DropMeta(p.sid))))
  {
    Tells(c, t, p, o);
  }

  // reap_orphans

  lemma RListMakes(c: Config, t: State, p: Proc, o: Obs)
    requires p.pc.RList? && (o.Error? || (o.Listed? && Listing(t, p.key.group, o.ids)))
    ensures Makes(c, t, p, o, Move(if o.Listed? then p.(pc := RNext, todo := o.ids) else p.(pc := Gone), Nothing))
  {
    Tells(c, t, p, o);
  }

  lemma RNextMakes(c: Config, t: State, p: Proc, o: Obs)
    requires p.pc.RNext? && p.todo != []
    requires o.Lost? || o == Meta(if p.todo[0] in t.index then Some(t.index[p.todo[0]]) else None)
    ensures Makes(c, t, p, o, Move(
      if o.Lost? then p.(pc := Gone) else if o.meta.None? then p.(todo := p.todo[1..])
      else p.(pc := RPeek, key := o.meta.value, sid := p.todo[0]), Nothing))
  {
    Tells(c, t, p, o);
  }

  lemma RDoneMakes(c: Config, t: State, p: Proc)
    requires p.pc.RNext? && p.todo == []
    ensures Makes(c, t, p, Done, Move(p.(pc := Gone), Nothing))
  {
    Tells(c, t, p, Done);
  }

  lemma RPeekMakes(c: Config, t: State, p: Proc, o: Obs)
    requires p.pc.RPeek? && p.todo != [] && (o.Lost? || o == Seen(Bound(t, p.key)))
    ensures Makes(c, t, p, o, Move(
      if o.Lost? then p.(pc := Gone) else if o.binding == Some(p.sid) then p.(pc := RNext, todo := p.todo[1..])
      else p.(pc := RDelete), Nothing))
  {
    Tells(c, t, p, o);
  }

  lemma RDeleteMakes(c: Config, t: State, p: Proc, o: Obs)
    requires p.pc.RDelete? && (o.Error? || (o.Done? && p.sid in t.live) || (o.NotFound? && p.sid !in t.live))
    ensures Makes(c, t, p, o, Move(p.(pc := if o.Error? then Gone else RDrop), When(Landed(o), Delete(p.sid))))
  {
    Tells(c, t, p, o);
  }

  lemma RDropMakes(c: Config, t: State, p: Proc, o: Obs)
    requires p.pc.RDrop? && p.todo != [] && (o.Done? || o.Lost?)
    ensures Makes(c, t, p, o, Move(p.(pc := if o.Done? then RNext else Gone, todo := p.todo[1..]), When(Landed(o), DropMeta(p.sid))))
  {
    Tells(c, t, p, o);
  }
}
