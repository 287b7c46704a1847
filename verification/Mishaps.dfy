/**
  * Three runs from the empty system that break what is proved of runs under a condition. One
  * replica makes every step, Redis is in order, and one call goes wrong: it is cancelled as it
  * bootstraps, it is cancelled as it deletes, or it gives up on a creation that succeeds.
  */
module Mishaps {
  import opened Options
  import opened TokenLease
  import opened Routing
  import opened Protocol
  import opened Moves
  import opened Solo
  import opened Reaping

  /** A process makes a move. */
  lemma Then(c: Config, es: seq<Event>, t: State, pid: Pid, o: Obs, m: Move) returns (fs: seq<Event>)
    requires Reached(c, false, es, t) && pid in t.procs && Does(c, t, t.procs[pid], o, m)
    ensures Reached(c, false, fs, After(c, t, pid, m)) && fs == es + [Do(pid, o)]
  {
    fs := es + [Do(pid, o)];
    assert Can(t, Do(pid, o)) && Advance(c, t.now, t.procs[pid], o) == m;
    StillReached(c, false, es, t, Do(pid, o));
  }

  // ------------------------------------------------------------------- the parts of a call

  function Starter(k: Key): Proc {
    Proc(0, k, WaitLocal, 0, false, 0, false, [])
  }

  /** A call behind its locks. */
  function Entered(c: Config, now: nat, k: Key): Proc {
    Starter(k).(pc := Lookup, got := c.distributed, since := if c.distributed then now else 0)
  }

  /** The Redis lock, where there is one, is the call's. */
  predicate HasLock(t: State, pid: Pid, p: Proc) {
    if p.got then p.key in t.redis && t.redis[p.key].token == pid else Free(Slot(t, p.key), t.now)
  }

  lemma SpawnRuns(c: Config, es: seq<Event>, t: State, pid: Pid, p: Proc) returns (fs: seq<Event>)
    requires Reached(c, false, es, t) && pid !in t.procs && Starting(p) && p.rid == 0
    ensures Reached(c, false, fs, t.(procs := t.procs[pid := p])) && es <= fs
  {
    hide Reached;
    fs := es + [Spawn(pid, p)];
    StillReached(c, false, es, t, Spawn(pid, p));
  }

  /** The local lock, and the Redis lock after it. */
  lemma QueueRuns(c: Config, es: seq<Event>, s: State, pid: Pid, p: Proc) returns (fs: seq<Event>, t: State)
    requires Reached(c, false, es, s) && pid in s.procs && s.procs[pid] == p && p.pc.WaitLocal? && c.distributed
    requires (p.rid, p.key) !in s.local && Free(Slot(s, p.key), s.now)
    ensures Reached(c, false, fs, t) && t.procs == s.procs[pid := p.(pc := Lookup, got := true, since := s.now)]
    ensures t.local == s.local[(p.rid, p.key) := pid] && p.key in t.redis && t.redis[p.key].token == pid
    ensures t.now == s.now && t.forward == s.forward && t.live == s.live && t.booted == s.booted && t.owner == s.owner && t.index == s.index
  {
    hide Reached, Does, LocksMove;
    QueueDoes(c, s, p);
    var m := Move(p.(pc := WaitRedis), TakeLocal(p.key));
    fs := Then(c, es, s, pid, Done, m);
    t := After(c, s, pid, m);
    AcquireDoes(c, t, m.next);
    m := Move(p.(pc := Lookup, got := true, since := s.now), TakeRedis(p.key));
    fs := Then(c, fs, t, pid, Done, m);
    t := After(c, t, pid, m);
  }

  /** The call takes the locks there are. */
  lemma EnterRuns(c: Config, es: seq<Event>, s: State, pid: Pid, k: Key) returns (fs: seq<Event>, t: State)
    requires Reached(c, false, es, s) && pid !in s.procs && (0, k) !in s.local && Free(Slot(s, k), s.now)
    ensures Reached(c, false, fs, t) && t.procs == s.procs[pid := Entered(c, s.now, k)] && t.local == s.local[(0, k) := pid]
    ensures HasLock(t, pid, Entered(c, s.now, k))
    ensures t.now == s.now && t.forward == s.forward && t.live == s.live && t.booted == s.booted && t.owner == s.owner && t.index == s.index
  {
    hide Reached, Does, LocksMove;
    var p := Starter(k);
    fs := SpawnRuns(c, es, s, pid, p);
    t := s.(procs := s.procs[pid := p]);
    if c.distributed {
      fs, t := QueueRuns(c, fs, t, pid, p);
    } else {
      EnterMakes(c, t, p);
      var m := Move(Entered(c, s.now, k), TakeLocal(k));
      fs := Then(c, fs, t, pid, Done, m);
      t := After(c, t, pid, m);
    }
  }

  /** A miss: a sandbox is created. */
  lemma CreateRuns(c: Config, es: seq<Event>, s: State, pid: Pid, p: Proc, id: Sid) returns (fs: seq<Event>, t: State)
    requires Reached(c, false, es, s) && pid in s.procs && s.procs[pid] == p && p.pc.Lookup? && Bound(s, p.key) == None && id !in s.owner
    ensures Reached(c, false, fs, t) && t.procs == s.procs[pid := p.(pc := PutForward, sid := id)]
    ensures id in t.live && t.now == s.now && t.local == s.local && t.redis == s.redis && t.booted == s.booted
  {
    hide Reached, Does, LocksMove;
    LookupMakes(c, s, p, Seen(None));
    var m := Move(p.(pc := Create), Nothing);
    fs := Then(c, es, s, pid, Seen(None), m);
    t := After(c, s, pid, m);
    CreateMakes(c, t, m.next, Fresh(id));
    m := Move(p.(pc := PutForward, sid := id), Provision(id, p.key));
    fs := Then(c, fs, t, pid, Fresh(id), m);
    t := After(c, t, pid, m);
  }

  /** It is bound and indexed. */
  lemma RegisterRuns(c: Config, es: seq<Event>, s: State, pid: Pid, p: Proc) returns (fs: seq<Event>, t: State)
    requires Reached(c, false, es, s) && pid in s.procs && s.procs[pid] == p && p.pc.PutForward? && c.sessionTtl > 0
    ensures Reached(c, false, fs, t) && t.procs == s.procs[pid := p.(pc := CheckBoot)] && Bound(t, p.key) == Some(p.sid)
    ensures t.live == s.live && t.now == s.now && t.local == s.local && t.redis == s.redis && t.booted == s.booted
    ensures p.sid in t.announced
  {
    hide Reached, Does, LocksMove;
    PutForwardMakes(c, s, p, Done);
    var m := Move(p.(pc := PutIndex), BindTo(p.key, p.sid, true));
    fs := Then(c, es, s, pid, Done, m);
    t := After(c, s, pid, m);
    PutIndexMakes(c, t, m.next, Done);
    m := Move(p.(pc := CheckBoot), PutMeta(p.sid, p.key, true));
    fs := Then(c, fs, t, pid, Done, m);
    t := After(c, t, pid, m);
  }

  /** The bootstrap begins and is cancelled. */
  lemma CancelRuns(c: Config, es: seq<Event>, s: State, pid: Pid, p: Proc) returns (fs: seq<Event>, t: State)
    requires Reached(c, false, es, s) && pid in s.procs && s.procs[pid] == p && p.pc.CheckBoot?
    ensures Reached(c, false, fs, t) && t == s.(procs := s.procs[pid := Leave(p, false)])
  {
    hide Reached, Does, LocksMove;
    CheckBootMakes(c, s, p, Flagged(false));
    var m := Move(p.(pc := Boot), Nothing);
    fs := Then(c, es, s, pid, Flagged(false), m);
    t := After(c, s, pid, m);
    CancelDoes(c, t, m.next, false);
    m := Move(Leave(p, false), Nothing);
    fs := Then(c, fs, t, pid, Cancelled(false), m);
    t := After(c, t, pid, m);
  }

  /** A hit: the sandbox that is bound is reused. */
  lemma ReuseRuns(c: Config, es: seq<Event>, s: State, pid: Pid, p: Proc, id: Sid) returns (fs: seq<Event>, t: State)
    requires Reached(c, false, es, s) && pid in s.procs && s.procs[pid] == p && p.pc.Lookup? && Bound(s, p.key) == Some(id) && id in s.live
    ensures Reached(c, false, fs, t) && t.procs == s.procs[pid := p.(pc := Ensure, sid := id)]
    ensures t.live == s.live && t.now == s.now && t.local == s.local && t.redis == s.redis && t.booted == s.booted
  {
    hide Reached, Does, LocksMove;
    LookupMakes(c, s, p, Seen(Some(id)));
    var m := Move(p.(pc := Refresh, sid := id), Nothing);
    fs := Then(c, es, s, pid, Seen(Some(id)), m);
    t := After(c, s, pid, m);
    RefreshMakes(c, t, m.next, Done);
    m := Move(p.(pc := Ensure, sid := id), BindTo(p.key, id, true));
    fs := Then(c, fs, t, pid, Done, m);
    t := After(c, t, pid, m);
  }

  lemma WakeRuns(c: Config, es: seq<Event>, s: State, pid: Pid, p: Proc) returns (fs: seq<Event>, t: State)
    requires Reached(c, false, es, s) && pid in s.procs && s.procs[pid] == p && p.pc.Ensure? && p.sid in s.live
    ensures Reached(c, false, fs, t) && t == s.(procs := s.procs[pid := Leave(p, true)])
  {
    hide Reached, Does, LocksMove;
    EnsureMakes(c, s, p, Done);
    var m := Move(Leave(p, true), Nothing);
    fs := Then(c, es, s, pid, Done, m);
    t := After(c, s, pid, m);
  }

  lemma FreedIsFree(c: Config, t: State, pid: Pid, rid: Rid, k: Key)
    requires k in t.redis && t.redis[k].token == pid
    ensures var u := Commit(c, t, pid, rid, FreeRedis(k)); u == t.(redis := u.redis) && Free(Slot(u, k), t.now)
  {
  }

  /** The Redis lock is given back, if it was taken. */
  lemma ReleaseRuns(c: Config, es: seq<Event>, s: State, pid: Pid, q: Proc, ok: bool) returns (fs: seq<Event>, t: State)
    requires Reached(c, false, es, s) && pid in s.procs && s.procs[pid] == Leave(q, ok) && HasLock(s, pid, q)
    ensures Reached(c, false, fs, t) && es <= fs && t.procs == s.procs[pid := q.(pc := UnlockLocal, ok := ok)]
    ensures Free(Slot(t, q.key), t.now) && t.local == s.local
    ensures t.now == s.now && t.forward == s.forward && t.live == s.live && t.booted == s.booted && t.owner == s.owner && t.index == s.index
  {
    hide Reached, Does, LocksMove, Commit;
    if q.got {
      ReleaseDoes(c, s, Leave(q, ok));
      var m := Move(q.(pc := UnlockLocal, ok := ok), FreeRedis(q.key));
      fs := Then(c, es, s, pid, Done, m);
      FreedIsFree(c, s, pid, q.rid, q.key);
      t := After(c, s, pid, m);
    } else {
      fs, t := es, s;
      assert s.procs[pid := s.procs[pid]] == s.procs;
    }
  }

  /** Both locks are given back. */
  lemma ExitRuns(c: Config, es: seq<Event>, s: State, pid: Pid, q: Proc, ok: bool) returns (fs: seq<Event>, t: State)
    requires Reached(c, false, es, s) && pid in s.procs && s.procs[pid] == Leave(q, ok) && q.rid == 0 && HasLock(s, pid, q)
    ensures Reached(c, false, fs, t) && es <= fs && t.procs == s.procs[pid := q.(pc := if ok then Serve else Gone, ok := ok)]
    ensures t.local == s.local - {(0, q.key)} && Free(Slot(t, q.key), t.now)
    ensures t.now == s.now && t.forward == s.forward && t.live == s.live && t.booted == s.booted && t.owner == s.owner && t.index == s.index
  {
    hide Reached, Does, LocksMove;
    fs, t := ReleaseRuns(c, es, s, pid, q, ok);
    var p := q.(pc := UnlockLocal, ok := ok);
    ExitMakes(c, t, p);
    var m := Move(p.(pc := if ok then Serve else Gone), FreeLocal(q.key));
    fs := Then(c, fs, t, pid, Done, m);
    t := After(c, t, pid, m);
  }

  // ------------------------------------------------------------------------ the whole story

  lemma Nobody(c: Config)
    ensures Reached(c, false, [], Init())
  {
    assert forall A: set<Assumption> :: IsRun(c, A, Init(), [], Init());
  }

  /** A call creates and binds sandbox 0 and is cancelled as it bootstraps it. */
  lemma FirstCall(c: Config, k: Key) returns (es: seq<Event>, t: State)
    requires c.sessionTtl > 0
    ensures Reached(c, false, es, t) && Bound(t, k) == Some(0) && 0 in t.live && t.booted == {}
    ensures 1 !in t.procs && (0, k) !in t.local && Free(Slot(t, k), t.now)
  {
    hide Reached, Does, LocksMove;
    Nobody(c);
    es, t := EnterRuns(c, [], Init(), 0, k);
    var p := Entered(c, 0, k);
    es, t := CreateRuns(c, es, t, 0, p, 0);
    es, t := RegisterRuns(c, es, t, 0, p.(pc := PutForward, sid := 0));
    es, t := CancelRuns(c, es, t, 0, p.(pc := CheckBoot, sid := 0));
    es, t := ExitRuns(c, es, t, 0, p.(pc := CheckBoot, sid := 0), false);
  }

  /**
    * A client that is not bootstrapped: after a call that was cancelled while it bootstrapped its
    * sandbox, the next call on the key finds that sandbox bound and returns it, with the Redis
    * lock on or off.
    */
  lemma UnbootstrappedClient(c: Config, k: Key) returns (es: seq<Event>, t: State)
    requires c.sessionTtl > 0
    ensures IsRun(c, {OneReplica(0, k)}, Init(), es, t)
    ensures 1 in t.procs && t.procs[1].key == k && t.procs[1].pc.Serve? && t.procs[1].ok && t.procs[1].sid !in t.booted
  {
    es, t := FirstCall(c, k);
    var p := Entered(c, t.now, k);
    es, t := EnterRuns(c, es, t, 1, k);
    es, t := ReuseRuns(c, es, t, 1, p, 0);
    es, t := WakeRuns(c, es, t, 1, p.(pc := Ensure, sid := 0));
    es, t := ExitRuns(c, es, t, 1, p.(pc := Ensure, sid := 0), true);
  }

  // --------------------------------------------------------------------- a trail that is lost

  function Ender(k: Key): Proc {
    Proc(0, k, EPeek, 0, false, 0, false, [])
  }

  /** A call creates, binds and indexes sandbox 0. */
  lemma RegisteredCall(c: Config, k: Key) returns (es: seq<Event>, t: State)
    requires c.sessionTtl > 0
    ensures Reached(c, false, es, t) && Bound(t, k) == Some(0) && 0 in t.live && 0 in t.announced && 1 !in t.procs
  {
    hide Reached;
    Nobody(c);
    es, t := EnterRuns(c, [], Init(), 0, k);
    var p := Entered(c, 0, k);
    es, t := CreateRuns(c, es, t, 0, p, 0);
    es, t := RegisterRuns(c, es, t, 0, p.(pc := PutForward, sid := 0));
  }

  /** The end of the session finds the sandbox and is cancelled as it deletes it. */
  lemma InterruptRuns(c: Config, es: seq<Event>, s: State, pid: Pid, k: Key, id: Sid) returns (fs: seq<Event>, t: State)
    requires Reached(c, false, es, s) && pid !in s.procs && Bound(s, k) == Some(id)
    ensures Reached(c, false, fs, t) && t == s.(procs := s.procs[pid := Ender(k).(pc := EUnbind, sid := id)])
  {
    hide Reached, Does, LocksMove;
    fs := SpawnRuns(c, es, s, pid, Ender(k));
    t := s.(procs := s.procs[pid := Ender(k)]);
    EPeekMakes(c, t, Ender(k), Seen(Some(id)));
    var m := Move(Ender(k).(pc := EDelete, sid := id), Nothing);
    fs := Then(c, fs, t, pid, Seen(Some(id)), m);
    t := After(c, t, pid, m);
    EDeleteMakes(c, t, m.next, Cancelled(false));
    m := Move(Ender(k).(pc := EUnbind, sid := id), Nothing);
    fs := Then(c, fs, t, pid, Cancelled(false), m);
    t := After(c, t, pid, m);
  }

  /** The clean-up runs all the same. */
  lemma CleanUpRuns(c: Config, es: seq<Event>, s: State, pid: Pid, p: Proc) returns (fs: seq<Event>, t: State)
    requires Reached(c, false, es, s) && pid in s.procs && s.procs[pid] == p && p.pc.EUnbind?
    ensures Reached(c, false, fs, t) && t.live == s.live && t.announced == s.announced && t.index == s.index - {p.sid}
    ensures t.procs == s.procs[pid := p.(pc := Gone)]
  {
    hide Reached, Does, LocksMove;
    EUnbindMakes(c, s, p, Done);
    var m := Move(p.(pc := EDrop), Unbind(p.key));
    fs := Then(c, es, s, pid, Done, m);
    t := After(c, s, pid, m);
    EDropMakes(c, t, m.next, Done);
    m := Move(p.(pc := Gone), DropMeta(p.sid));
    fs := Then(c, fs, t, pid, Done, m);
    t := After(c, t, pid, m);
  }

  /**
    * A sandbox nobody will find: an `end_session` that is cancelled before its delete takes effect
    * goes on to drop the index entry of the sandbox, which lives on.
    */
  lemma LostTrail(c: Config, k: Key) returns (es: seq<Event>, t: State)
    requires c.sessionTtl > 0
    ensures IsRun(c, {OneReplica(0, k)}, Init(), es, t)
    ensures 0 in t.live && 0 in t.announced && 0 !in t.index
  {
    es, t := RegisteredCall(c, k);
    es, t := InterruptRuns(c, es, t, 1, k, 0);
    es, t := CleanUpRuns(c, es, t, 1, Ender(k).(pc := EUnbind, sid := 0));
  }

  // ------------------------------------------------------------------ a sandbox nobody knows

  /** The call finds nothing bound and gives up on its creation, which the platform carries on with. */
  lemma GiveUpRuns(c: Config, es: seq<Event>, s: State, pid: Pid, p: Proc) returns (fs: seq<Event>, t: State)
    requires Reached(c, false, es, s) && pid in s.procs && s.procs[pid] == p && p.pc.Lookup? && Bound(s, p.key) == None
    ensures Reached(c, false, fs, t) && t == s.(procs := s.procs[pid := Leave(p, false)]) && Do(pid, Obs.Error(true)) in fs
  {
    hide Reached, Does, LocksMove;
    LookupMakes(c, s, p, Seen(None));
    var m := Move(p.(pc := Create), Nothing);
    fs := Then(c, es, s, pid, Seen(None), m);
    t := After(c, s, pid, m);
    CreateMakes(c, t, m.next, Obs.Error(true));
    m := Move(Leave(p, false), Nothing);
    fs := Then(c, fs, t, pid, Obs.Error(true), m);
    t := After(c, t, pid, m);
  }

  /** The creation it gave up on is carried through. */
  lemma StrayRuns(c: Config, k: Key) returns (es: seq<Event>, t: State)
    ensures Reached(c, false, es, t) && Do(0, Obs.Error(true)) in es
    ensures t.procs == map[0 := Entered(c, 0, k).(pc := Gone)] && t.index == map[]
    ensures 0 in t.live && 0 in t.strays && t.owner == map[0 := k]
  {
    hide Reached, Does, LocksMove;
    Nobody(c);
    es, t := EnterRuns(c, [], Init(), 0, k);
    var p := Entered(c, 0, k);
    es, t := GiveUpRuns(c, es, t, 0, p);
    es, t := ExitRuns(c, es, t, 0, p, false);
    StillReached(c, false, es, t, Stray(0, k));
    es, t := es + [Stray(0, k)], Apply(c, t, Stray(0, k));
  }

  function Reaper(g: Group): Proc {
    Proc(0, Key("", "", g), RList, 0, false, 0, false, [])
  }

  /** A step of a reaper that meets no error. */
  lemma PassGoesOn(c: Config, k: Key, st: State, pass: seq<Event>, t: State, o: Obs, m: Move) returns (longer: seq<Event>)
    requires IsRun(c, {Quiet(k), CleanPass(1)}, st, pass, t) && 1 in t.procs && Does(c, t, t.procs[1], o, m)
    requires !o.Error? && !o.Lost? && !o.Cancelled?
    ensures IsRun(c, {Quiet(k), CleanPass(1)}, st, longer, After(c, t, 1, m))
  {
    hide IsRun, Enabled, Advance, Commit;
    longer := pass + [Do(1, o)];
    assert Can(t, Do(1, o)) && Advance(c, t.now, t.procs[1], o) == m;
    RunGrows(c, {Quiet(k), CleanPass(1)}, st, pass, t, Do(1, o));
  }

  /** The reaper is shown a sandbox it finds no entry of, and is done. */
  lemma PassesOver(c: Config, k: Key, st: State) returns (pass: seq<Event>, t: State)
    requires 1 in st.procs && st.procs[1] == Reaper(k.group) && Listing(st, k.group, [0]) && 0 !in st.index
    ensures IsRun(c, {Quiet(k), CleanPass(1)}, st, pass, t) && t == st.(procs := st.procs[1 := Reaper(k.group).(pc := Gone)])
  {
    hide IsRun, Does, LocksMove;
    var p := Reaper(k.group);
    RListMakes(c, st, p, Listed([0]));
    var m := Move(p.(pc := RNext, todo := [0]), Nothing);
    RunsNowhere(c, k, st);
    pass := PassGoesOn(c, k, st, [], st, Listed([0]), m);
    t := After(c, st, 1, m);
    RNextMakes(c, t, m.next, Meta(None));
    m := Move(p.(pc := RNext), Nothing);
    assert [0][1..] == p.todo;
    pass := PassGoesOn(c, k, st, pass, t, Meta(None), m);
    t := After(c, t, 1, m);
    RDoneMakes(c, t, m.next);
    m := Move(p.(pc := Gone), Nothing);
    pass := PassGoesOn(c, k, st, pass, t, Done, m);
    t := After(c, t, 1, m);
  }

  lemma RunsNowhere(c: Config, k: Key, st: State)
    ensures IsRun(c, {Quiet(k), CleanPass(1)}, st, [], st)
  {
  }

  /**
    * A sandbox no pass reclaims: a call gives up on a creation, the platform carries it through, and a
    * reaper that meets no error is shown the sandbox and leaves it, with nobody else about.
    */
  lemma StrayOutlivesPass(c: Config, k: Key) returns (before: seq<Event>, st: State, pass: seq<Event>, t: State)
    ensures IsRun(c, {OneReplica(0, k)}, Init(), before, st) && Do(0, Obs.Error(true)) in before
    ensures CallsRest(st, k) && 0 in st.procs && st.procs[0].key == k && !st.procs[0].ok
    ensures 1 in st.procs && st.procs[1] == Reaper(k.group)
    ensures IsRun(c, {Quiet(k), CleanPass(1)}, st, pass, t) && 1 in t.procs && t.procs[1].pc.Gone?
    ensures 0 in t.live && 0 in t.strays && 0 in t.owner && t.owner[0] == k && 0 !in t.index
  {
    hide IsRun;
    var es, s := StrayRuns(c, k);
    before := SpawnRuns(c, es, s, 1, Reaper(k.group));
    st := s.(procs := s.procs[1 := Reaper(k.group)]);
    pass, t := PassesOver(c, k, st);
  }
}
