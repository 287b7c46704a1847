/**
  * One replica as an object: what Redis and the platform hold, updated in place by
  * `exec`, `end_session` and `reap_orphans`, one call at a time. Every call leaves the object
  * in a state that a run of the protocol reaches, so the theorems about runs hold of it.
  */
module Manager {
  import opened Options
  import opened Routing
  import opened Protocol
  import opened Moves
  import opened Isolation
  import opened Solo
  import Exclusion
  import Bootstrap

  /** How Redis answers a request: it may fail before or after applying it. */
  datatype Reply = Good | Bad(applied: bool)

  function Heard(r: Reply): Obs {
    if r.Good? then Done else Lost(r.applied)
  }

  predicate Applied(r: Reply) {
    r.Good? || r.applied
  }

  /** What Redis and the platform do during one `get_or_create`. */
  datatype Weather = Weather(
    get: Reply, slide: Reply, wakes: bool, reset: Reply, created: Option<Sid>,
    bind: Reply, register: Reply, flag: Reply, boots: bool, mark: Reply, rollback: Reply)

  datatype Answer = Answer(store: Store, client: Option<Sid>)

  function Hit(now: nat, st: Store, key: Key): Option<Sid> {
    if key in st.forward && now < st.forward[key].expires then Some(st.forward[key].sid) else None
  }

  function Bind(forward: map<Key, Entry>, key: Key, s: Sid, until: nat, r: Reply): map<Key, Entry> {
    if Applied(r) then forward[key := Entry(s, until)] else forward
  }

  function Unbound(forward: map<Key, Entry>, key: Key, r: Reply): map<Key, Entry> {
    if Applied(r) then forward - {key} else forward
  }

  // -------------------------------------------------------- what get_or_create answers

  /** What the sliding read returns: an error in either half reads as a miss. */
  function Found(now: nat, st: Store, key: Key, w: Weather): Option<Sid> {
    if w.get.Good? && w.slide.Good? then Hit(now, st, key) else None
  }

  function Slid(c: Config, now: nat, st: Store, key: Key, w: Weather): Store {
    if w.get.Good? && Hit(now, st, key).Some?
    then st.(forward := Bind(st.forward, key, Hit(now, st, key).value, now + c.sessionTtl, w.slide)) else st
  }

  function Created(c: Config, now: nat, st: Store, key: Key, w: Weather): Answer {
    if w.created.None? then Answer(st, None)
    else SetUp(c, now, st.(live := st.live + {w.created.value}), key, w.created.value, w)
  }

  function Registered(c: Config, now: nat, st: Store, key: Key, s: Sid, w: Weather): Store {
    st.(forward := Bind(st.forward, key, s, now + c.sessionTtl, w.bind),
        index := if Applied(w.register) then st.index[s := key] else st.index)
  }

  predicate Flagged(st: Store, s: Sid, w: Weather) {
    w.flag.Good? && s in st.flags
  }

  function Booting(st: Store, key: Key, s: Sid, w: Weather): Answer {
    if Flagged(st, s, w) then Answer(st, Some(s))
    else if w.boots then Answer(st.(flags := if Applied(w.mark) then st.flags + {s} else st.flags), Some(s))
    else Answer(st.(forward := Unbound(st.forward, key, w.rollback)), None)
  }

  function SetUp(c: Config, now: nat, st: Store, key: Key, s: Sid, w: Weather): Answer {
    Booting(Registered(c, now, st, key, s, w), key, s, w)
  }

  /** The whole call, as a function of the stores. */
  function Call(c: Config, now: nat, st: Store, key: Key, w: Weather): Answer {
    var found := Found(now, st, key, w);
    var slid := Slid(c, now, st, key, w);
    if found.None? then Created(c, now, slid, key, w)
    else if !w.wakes then Answer(slid, None)
    else if found.value in st.live then Answer(slid, found)
    else Created(c, now, slid.(forward := Unbound(slid.forward, key, w.reset)), key, w)
  }

  // what a call comes to, in terms of the stores before it

  /** The sandbox an undisturbed read of the key finds. */
  predicate ReadsBound(now: nat, st: Store, key: Key, w: Weather, s: Sid) {
    key in st.forward && now < st.forward[key].expires && st.forward[key].sid == s && w.get.Good?
  }

  /** A live sandbox is bound, its binding is read and refreshed without error, and it wakes. */
  predicate Reusable(now: nat, st: Store, key: Key, w: Weather, s: Sid) {
    ReadsBound(now, st, key, w, s) && w.slide.Good? && w.wakes && s in st.live
  }

  /** No binding comes out of the sliding read, or that of a sandbox that turns out to be gone. */
  predicate Recreates(now: nat, st: Store, key: Key, w: Weather) {
    || key !in st.forward || now >= st.forward[key].expires || !w.get.Good? || !w.slide.Good?
    || (w.wakes && st.forward[key].sid !in st.live)
  }

  predicate BootsOr(st: Store, s: Sid, w: Weather) {
    w.boots || (w.flag.Good? && s in st.flags)
  }

  /**
    * When a call succeeds, and with what: a live bound sandbox that is found and wakes is
    * returned; otherwise, unless one is bound that does not wake, the new sandbox is, if the
    * platform creates it and it boots (or was flagged). In no other case is there a client, and
    * the client is alive.
    */
  lemma CallSucceedsIff(c: Config, now: nat, st: Store, key: Key, w: Weather, s: Sid)
    ensures var a := Call(c, now, st, key, w);
            && (a.client == Some(s) <==>
                  || Reusable(now, st, key, w, s)
                  || (Recreates(now, st, key, w) && w.created == Some(s) && BootsOr(st, s, w)))
            && (a.client == Some(s) ==> s in a.store.live)
  {
  }

  /**
    * What a call that creates leaves in the stores: the sandbox, live; its index entry, if that was
    * applied; its flag, if it was booted for it and that was applied; and its binding for one session window,
    * if that was applied, unless the bootstrap failed and the rollback was applied.
    */
  lemma CreationLeaves(c: Config, now: nat, st: Store, key: Key, w: Weather)
    requires Recreates(now, st, key, w) && w.created.Some?
    ensures var s, t := w.created.value, Call(c, now, st, key, w).store;
            && t.live == st.live + {s}
            && t.index == (if Applied(w.register) then st.index[s := key] else st.index)
            && t.flags == (if !(w.flag.Good? && s in st.flags) && w.boots && Applied(w.mark) then st.flags + {s} else st.flags)
            && (BootsOr(st, s, w) && Applied(w.bind) ==> key in t.forward && t.forward[key] == Entry(s, now + c.sessionTtl))
            && (!BootsOr(st, s, w) && Applied(w.rollback) ==> key !in t.forward)
            && t.forward - {key} == st.forward - {key}
  {
    hide Call, Created;
    var mid := ComesToCreate(c, now, st, key, w);
    CreatedLeaves(c, now, mid, key, w);
  }

  lemma ComesToCreate(c: Config, now: nat, st: Store, key: Key, w: Weather) returns (mid: Store)
    requires Recreates(now, st, key, w)
    ensures Call(c, now, st, key, w) == Created(c, now, mid, key, w)
    ensures mid == st.(forward := mid.forward) && mid.forward - {key} == st.forward - {key}
  {
    hide Created;
    mid := Slid(c, now, st, key, w);
    if Found(now, st, key, w).Some? {
      mid := mid.(forward := Unbound(mid.forward, key, w.reset));
    }
  }

  lemma CreatedLeaves(c: Config, now: nat, st: Store, key: Key, w: Weather)
    requires w.created.Some?
    ensures var s, t := w.created.value, Created(c, now, st, key, w).store;
            && t.live == st.live + {s}
            && t.index == (if Applied(w.register) then st.index[s := key] else st.index)
            && t.flags == (if !(w.flag.Good? && s in st.flags) && w.boots && Applied(w.mark) then st.flags + {s} else st.flags)
            && (BootsOr(st, s, w) && Applied(w.bind) ==> key in t.forward && t.forward[key] == Entry(s, now + c.sessionTtl))
            && (!BootsOr(st, s, w) && Applied(w.rollback) ==> key !in t.forward)
            && t.forward - {key} == st.forward - {key}
  {
  }

  /** A binding changes only where a call writes it. */
  lemma ForwardElsewhere(c: Config, now: nat, st: Store, key: Key, w: Weather, k: Key)
    requires k != key
    ensures var t := Call(c, now, st, key, w).store;
            (k in t.forward <==> k in st.forward) && (k in st.forward ==> t.forward[k] == st.forward[k])
  {
  }

  /**
    * A call that creates nothing leaves all but the binding of its key alone; that binding is restarted if it
    * was read and the restart applied, and goes if its sandbox turned out to be gone and the reset was applied.
    */
  lemma NoCreationLeaves(c: Config, now: nat, st: Store, key: Key, w: Weather)
    requires !Recreates(now, st, key, w) || w.created.None?
    ensures var t := Call(c, now, st, key, w).store;
            && t.live == st.live && t.index == st.index && t.flags == st.flags && t.forward - {key} == st.forward - {key}
            && (forall s :: ReadsBound(now, st, key, w, s) ==>
                  var gone := w.slide.Good? && w.wakes && s !in st.live;
                  && (gone && Applied(w.reset) ==> key !in t.forward)
                  && (!(gone && Applied(w.reset)) ==>
                        key in t.forward && t.forward[key] == if Applied(w.slide) then Entry(s, now + c.sessionTtl) else st.forward[key]))
            && (!(exists s :: ReadsBound(now, st, key, w, s)) ==> t.forward == st.forward)
  {
    var t := Call(c, now, st, key, w).store;
    forall k | k != key
      ensures k in t.forward <==> k in st.forward
      ensures k in st.forward ==> t.forward[k] == st.forward[k]
    {
      ForwardElsewhere(c, now, st, key, w, k);
    }
    if key in st.forward && now < st.forward[key].expires && w.get.Good? {
      assert ReadsBound(now, st, key, w, st.forward[key].sid);
    }
  }

  /** Nothing goes wrong for a call that can reuse the sandbox. */
  predicate Reuses(w: Weather) {
    w.get.Good? && w.slide.Good? && w.wakes
  }

  /**
    * A call that returned a client whose routing key it managed to write is followed, within
    * the session window and while the sandbox lives, by calls that reuse that sandbox,
    * create nothing and start the window again.
    */
  lemma NextCallReuses(c: Config, now: nat, st: Store, key: Key, w: Weather, later: nat, v: Weather)
    requires Call(c, now, st, key, w).client.Some? && Applied(w.bind) && now <= later < now + c.sessionTtl
    requires Reuses(v)
    ensures var a := Call(c, now, st, key, w);
            && a.client.value in a.store.live
            && Call(c, later, a.store, key, v) ==
                 Answer(a.store.(forward := a.store.forward[key := Entry(a.client.value, later + c.sessionTtl)]), a.client)
  {
  }

  /**
    * A failed bootstrap whose rollback is applied unbinds the key but keeps the index entry,
    * so that the reaper finds the sandbox and the next call does not.
    */
  lemma FailureLeavesBreadcrumb(c: Config, now: nat, st: Store, key: Key, w: Weather, later: nat, v: Weather)
    requires w.created.Some? && w.created.value !in st.flags && !w.boots && Applied(w.register) && Applied(w.rollback)
    requires Found(now, st, key, w).None? || (w.wakes && Found(now, st, key, w).value !in st.live)
    ensures var a := Call(c, now, st, key, w);
            && a.client == None && w.created.value in a.store.live
            && w.created.value in a.store.index && a.store.index[w.created.value] == key
            && Found(later, a.store, key, v) == None
            && Call(c, later, a.store, key, v) == Created(c, later, a.store, key, v)
  {
  }

  predicate SameFor(st: Store, t: Store, k: Key, s: Sid) {
    && (k in t.forward <==> k in st.forward) && (k in st.forward ==> t.forward[k] == st.forward[k])
    && (s in t.index <==> s in st.index) && (s in st.index ==> t.index[s] == st.index[s])
    && (s in t.live <==> s in st.live) && (s in t.flags <==> s in st.flags)
  }

  lemma CreationLeavesOthersAlone(c: Config, now: nat, st: Store, key: Key, w: Weather, k: Key, s: Sid)
    requires k != key && w.created != Some(s)
    ensures SameFor(st, Created(c, now, st, key, w).store, k, s)
  {
  }

  /** A call touches no other key's binding, no other sandbox's index entry, and deletes nothing. */
  lemma CallLeavesOthersAlone(c: Config, now: nat, st: Store, key: Key, w: Weather, k: Key, s: Sid)
    requires k != key && w.created != Some(s)
    ensures SameFor(st, Call(c, now, st, key, w).store, k, s)
  {
    var slid := Slid(c, now, st, key, w);
    CreationLeavesOthersAlone(c, now, slid, key, w, k, s);
    CreationLeavesOthersAlone(c, now, slid.(forward := Unbound(slid.forward, key, w.reset)), key, w, k, s);
  }

  // ------------------------------------------------------------------- end_session, reaper

  /**
    * The delete is accepted, or finds nothing; it raises; or the call is cancelled while it waits.
    * In the last two cases the platform may delete all the same.
    */
  datatype Deletion = Accepted | Raised(applied: bool) | Interrupted(applied: bool)

  predicate Removes(d: Deletion) {
    d.Accepted? || d.applied
  }

  datatype Ending = Ending(peek: Reply, deletes: Deletion, unbind: Reply, drop: Reply)

  datatype Ended = Ended(store: Store, raised: bool)

  /** `end_session` for one group: the keys go even when the delete raises or is cancelled. */
  function EndOne(now: nat, st: Store, key: Key, w: Ending): Ended {
    if !w.peek.Good? then Ended(st, true)
    else if Hit(now, st, key).None? then Ended(st, false)
    else
      var s := Hit(now, st, key).value;
      var gone := st.(live := if Removes(w.deletes) then st.live - {s} else st.live, forward := Unbound(st.forward, key, w.unbind));
      if !w.unbind.Good? then Ended(gone, true)
      else Ended(gone.(index := if Applied(w.drop) then st.index - {s} else st.index), !w.deletes.Accepted? || !w.drop.Good?)
  }

  /**
    * Ending a session loses the trail of a live sandbox exactly when the delete raises or is
    * cancelled without taking effect, and the clean-up that follows all the same reaches the index.
    */
  lemma EndLosesTrailIff(now: nat, st: Store, key: Key, w: Ending, s: Sid)
    requires w.peek.Good? && Hit(now, st, key) == Some(s) && s in st.live && s in st.index
    ensures var t := EndOne(now, st, key, w).store;
            (s in t.live && s !in t.index) <==> (!Removes(w.deletes) && w.unbind.Good? && Applied(w.drop))
  {
  }

  /**
    * What ending a group does. Where the key is found bound, its sandbox is gone unless the delete had no
    * effect, the key is unbound unless that was not applied, and the index entry goes exactly if the unbind
    * answered and the drop was applied; it raises if and only if one of the four requests did. Where the
    * read fails or finds nothing bound, nothing changes, and it raises in the first case only.
    */
  lemma EndMeans(now: nat, st: Store, key: Key, w: Ending, s: Sid)
    ensures var bound, e := key in st.forward && now < st.forward[key].expires && st.forward[key].sid == s, EndOne(now, st, key, w);
            && (bound && w.peek.Good? ==>
                  && e.store.live == st.live - (if Removes(w.deletes) then {s} else {})
                  && e.store.forward == st.forward - (if Applied(w.unbind) then {key} else {})
                  && e.store.index == st.index - (if w.unbind.Good? && Applied(w.drop) then {s} else {})
                  && e.store.flags == st.flags
                  && (e.raised <==> !w.deletes.Accepted? || !w.unbind.Good? || !w.drop.Good?))
            && (!w.peek.Good? ==> e == Ended(st, true))
            && (w.peek.Good? && (key !in st.forward || now >= st.forward[key].expires) ==> e == Ended(st, false))
  {
    assert st.live - {} == st.live && st.forward - {} == st.forward && st.index - {} == st.index;
  }

  /** The key is not bound any more, and the sandbox that was bound to it is gone without a trace. */
  predicate Over(now: nat, st: Store, t: Store, key: Key) {
    && (key in t.forward ==> now >= t.forward[key].expires)
    && (key in st.forward && now < st.forward[key].expires ==> st.forward[key].sid !in t.live && st.forward[key].sid !in t.index)
  }

  lemma GroupEnds(now: nat, st: Store, key: Key, w: Ending)
    requires !EndOne(now, st, key, w).raised
    ensures var t := EndOne(now, st, key, w).store;
            && Over(now, st, t, key) && t.live <= st.live && t.index.Keys <= st.index.Keys
            && (forall k :: k != key ==> (k in t.forward <==> k in st.forward) && (k in st.forward ==> t.forward[k] == st.forward[k]))
  {
    EndMeans(now, st, key, w, if key in st.forward then st.forward[key].sid else 0);
  }

  /** An end of both groups that does not raise leaves neither key bound and neither sandbox. */
  lemma SessionEnds(now: nat, st: Store, key: Key, other: Key, w: Ending, v: Ending)
    requires key != other
    ensures var one := EndOne(now, st, key, w);
            var two := EndOne(now, one.store, other, v);
            !one.raised && !two.raised ==> Over(now, st, two.store, key) && Over(now, st, two.store, other)
  {
    hide EndOne;
    var one := EndOne(now, st, key, w);
    if !one.raised && !EndOne(now, one.store, other, v).raised {
      GroupEnds(now, st, key, w);
      GroupEnds(now, one.store, other, v);
    }
  }

  /** Whether the reads and writes for one listed sandbox succeed; a delete that raises may have been applied. */
  datatype Visit = Visit(meta: bool, peek: bool, deletes: Reply, drop: Reply)

  predicate Calm(v: Visit) {
    v.meta && v.peek && v.deletes.Good? && v.drop.Good?
  }

  /** Indexed, and its routing key does not lead to it now. */
  predicate Orphan(now: nat, st: Store, s: Sid) {
    s in st.index && Hit(now, st, st.index[s]) != Some(s)
  }

  function Orphans(now: nat, st: Store, ids: seq<Sid>): set<Sid> {
    set s | s in ids && Orphan(now, st, s)
  }

  /** `clean` when nothing raised. */
  datatype Visited = Visited(store: Store, clean: bool)

  /** An index entry goes only when the delete has not raised. */
  function Removed(st: Store, s: Sid, v: Visit): Visited {
    var t := st.(live := if Applied(v.deletes) then st.live - {s} else st.live);
    if !v.deletes.Good? then Visited(t, false)
    else Visited(t.(index := if Applied(v.drop) then t.index - {s} else t.index), v.drop.Good?)
  }

  /** The body of the reaper's loop. */
  function VisitOne(now: nat, st: Store, s: Sid, v: Visit): Visited {
    if !v.meta then Visited(st, false)
    else if s !in st.index then Visited(st, true)
    else if !v.peek then Visited(st, false)
    else if !Orphan(now, st, s) then Visited(st, true)
    else Removed(st, s, v)
  }

  /** One group: the first error abandons the rest of the list. */
  function VisitAll(now: nat, st: Store, ids: seq<Sid>, visit: Sid -> Visit): Visited
    decreases |ids|
  {
    if ids == [] then Visited(st, true)
    else
      var one := VisitOne(now, st, ids[0], visit(ids[0]));
      if one.clean then VisitAll(now, one.store, ids[1..], visit) else one
  }

  function Without(st: Store, gone: set<Sid>): Store {
    st.(live := st.live - gone, index := st.index - gone)
  }

  lemma VisitMeans(now: nat, st: Store, s: Sid, v: Visit)
    requires Calm(v)
    ensures VisitOne(now, st, s, v) == Visited(Without(st, if Orphan(now, st, s) then {s} else {}), true)
  {
    if !Orphan(now, st, s) {
      assert st.live - {} == st.live && st.index - {} == st.index;
    }
  }

  /** A pass without errors removes exactly the orphans of the list, in whatever order it comes and however often one is on it. */
  lemma {:induction false} CalmPassRemovesOrphans(now: nat, st: Store, ids: seq<Sid>, visit: Sid -> Visit)
    requires forall s :: s in ids ==> Calm(visit(s))
    ensures VisitAll(now, st, ids, visit) == Visited(Without(st, Orphans(now, st, ids)), true)
    decreases |ids|
  {
    if ids == [] {
      assert Orphans(now, st, ids) == {};
      assert st.live - {} == st.live && st.index - {} == st.index;
    } else {
      var s := ids[0];
      var gone := if Orphan(now, st, s) then {s} else {};
      var next := Without(st, gone);
      VisitMeans(now, st, s, visit(s));
      CalmPassRemovesOrphans(now, next, ids[1..], visit);
      assert Orphans(now, st, ids) == gone + Orphans(now, next, ids[1..]);
      assert st.live - gone - Orphans(now, next, ids[1..]) == st.live - Orphans(now, st, ids);
      assert st.index - gone - Orphans(now, next, ids[1..]) == st.index - Orphans(now, st, ids);
    }
  }

  /** Whatever goes wrong, only orphans go: no sandbox is removed that its routing key leads to. */
  lemma {:induction false} PassSparesBound(now: nat, st: Store, ids: seq<Sid>, visit: Sid -> Visit, s: Sid)
    requires !Orphan(now, st, s)
    ensures var t := VisitAll(now, st, ids, visit).store;
            && t.forward == st.forward && t.flags == st.flags
            && (s in t.live <==> s in st.live)
            && (s in t.index <==> s in st.index) && (s in st.index ==> t.index[s] == st.index[s])
    decreases |ids|
  {
    if ids != [] {
      var one := VisitOne(now, st, ids[0], visit(ids[0]));
      if one.clean {
        PassSparesBound(now, one.store, ids[1..], visit, s);
      }
    }
  }

  /** The visit raises nothing. */
  predicate Passed(now: nat, st: Store, s: Sid, v: Visit) {
    && v.meta && (s in st.index ==> v.peek)
    && (Orphan(now, st, s) ==> v.deletes.Good? && v.drop.Good?)
  }

  /** The pass gets to the sandbox: no visit to one before it on the list raises. */
  ghost predicate Comes(now: nat, st: Store, ids: seq<Sid>, visit: Sid -> Visit, s: Sid) {
    exists i :: 0 <= i < |ids| && ids[i] == s && forall j :: 0 <= j < i ==> Passed(now, st, ids[j], visit(ids[j]))
  }

  lemma ComesLater(now: nat, st: Store, next: Store, ids: seq<Sid>, visit: Sid -> Visit, s: Sid)
    requires ids != [] && Passed(now, st, ids[0], visit(ids[0])) && next == VisitOne(now, st, ids[0], visit(ids[0])).store
    ensures Comes(now, st, ids, visit, s) <==> ids[0] == s || Comes(now, next, ids[1..], visit, s)
  {
    assert forall x :: Passed(now, st, x, visit(x)) <==> Passed(now, next, x, visit(x));
    if Comes(now, st, ids, visit, s) && ids[0] != s {
      var i :| 0 <= i < |ids| && ids[i] == s && forall j :: 0 <= j < i ==> Passed(now, st, ids[j], visit(ids[j]));
      assert ids[1..][i - 1] == s;
      assert forall j :: 0 <= j < i - 1 ==> ids[1..][j] == ids[j + 1];
    }
    if Comes(now, next, ids[1..], visit, s) {
      var i :| 0 <= i < |ids[1..]| && ids[1..][i] == s && forall j :: 0 <= j < i ==> Passed(now, next, ids[1..][j], visit(ids[1..][j]));
      assert ids[i + 1] == s;
      assert forall j :: 0 < j < i + 1 ==> ids[j] == ids[1..][j - 1];
    }
  }

  lemma ComesAtOnce(now: nat, st: Store, ids: seq<Sid>, visit: Sid -> Visit, s: Sid)
    requires ids != []
    ensures ids[0] == s ==> Comes(now, st, ids, visit, s)
    ensures !Passed(now, st, ids[0], visit(ids[0])) ==> (Comes(now, st, ids, visit, s) <==> ids[0] == s)
  {
  }

  /**
    * What a pass removes, whatever goes wrong: a live sandbox goes if and only if the pass gets to it, finds
    * it an orphan, and its delete takes effect; its index entry goes if and only if that delete also
    * answered and the drop took effect; and the pass is clean if and only if no visit raises.
    */
  lemma {:induction false} PassRemovesIff(now: nat, st: Store, ids: seq<Sid>, visit: Sid -> Visit, s: Sid)
    ensures var p, v := VisitAll(now, st, ids, visit), visit(s);
            var found := Comes(now, st, ids, visit, s) && v.meta && v.peek && Orphan(now, st, s);
            && (s in p.store.live <==> s in st.live && !(found && Applied(v.deletes)))
            && (s in p.store.index <==> s in st.index && !(found && v.deletes.Good? && Applied(v.drop)))
            && (p.clean <==> forall i :: 0 <= i < |ids| ==> Passed(now, st, ids[i], visit(ids[i])))
    decreases |ids|
  {
    if ids == [] {
      assert !Comes(now, st, ids, visit, s);
    } else {
      var x := ids[0];
      var one := VisitOne(now, st, x, visit(x));
      assert one.clean <==> Passed(now, st, x, visit(x));
      ComesAtOnce(now, st, ids, visit, s);
      if one.clean {
        ComesLater(now, st, one.store, ids, visit, s);
        PassRemovesIff(now, one.store, ids[1..], visit, s);
        RestIsClean(now, st, one.store, ids, visit);
      }
    }
  }

  lemma RestIsClean(now: nat, st: Store, next: Store, ids: seq<Sid>, visit: Sid -> Visit)
    requires ids != [] && Passed(now, st, ids[0], visit(ids[0])) && next == VisitOne(now, st, ids[0], visit(ids[0])).store
    ensures (forall i :: 0 <= i < |ids| ==> Passed(now, st, ids[i], visit(ids[i])))
       <==> (forall i :: 0 <= i < |ids[1..]| ==> Passed(now, next, ids[1..][i], visit(ids[1..][i])))
  {
    assert forall x :: Passed(now, st, x, visit(x)) <==> Passed(now, next, x, visit(x));
    assert forall i :: 0 < i < |ids| ==> ids[i] == ids[1..][i - 1];
  }

  // what is left per key

  /** Two live indexed sandboxes of one key are one and the same. */
  ghost predicate OnePerKey(st: Store) {
    forall a, b :: a in st.live && b in st.live && a in st.index && b in st.index && st.index[a] == st.index[b] ==> a == b
  }

  /** Every live indexed sandbox of the group is on the list. */
  ghost predicate Lists(st: Store, g: Group, ids: seq<Sid>) {
    forall s :: s in st.live && s in st.index && st.index[s].group == g ==> s in ids
  }

  function VisitListed(now: nat, st: Store, listed: Option<seq<Sid>>, visit: Sid -> Visit): Store {
    if listed.Some? then VisitAll(now, st, listed.value, visit).store else st
  }

  function Pass(now: nat, st: Store, diagnose: Option<seq<Sid>>, action: Option<seq<Sid>>, visit: Sid -> Visit): Store {
    VisitListed(now, VisitListed(now, st, diagnose, visit), action, visit)
  }

  /** Both listings and every visit succeed. */
  ghost predicate CalmPass(diagnose: Option<seq<Sid>>, action: Option<seq<Sid>>, visit: Sid -> Visit) {
    diagnose.Some? && action.Some? && forall s :: s in diagnose.value || s in action.value ==> Calm(visit(s))
  }

  lemma {:induction false} PassFrame(now: nat, st: Store, ids: seq<Sid>, visit: Sid -> Visit)
    ensures var t := VisitAll(now, st, ids, visit).store;
            && t.forward == st.forward && t.flags == st.flags
            && (forall s :: s in t.index ==> s in st.index && t.index[s] == st.index[s])
            && (forall s :: s !in ids ==> (s in t.index <==> s in st.index) && (s in t.live <==> s in st.live))
    decreases |ids|
  {
    if ids != [] {
      PassFrame(now, VisitOne(now, st, ids[0], visit(ids[0])).store, ids[1..], visit);
      assert ids == [ids[0]] + ids[1..];
    }
  }

  predicate SameTrail(a: Store, b: Store, s: Sid) {
    (s in a.live <==> s in b.live) && (s in a.index <==> s in b.index)
  }

  /** A pass over a list does to its sandboxes what it does wherever they and their keys stand the same. */
  lemma PassIsLocal(now: nat, a: Store, b: Store, ids: seq<Sid>, visit: Sid -> Visit, s: Sid)
    requires a.forward == b.forward && s in ids
    requires forall x :: x in ids ==> SameTrail(a, b, x) && (x in a.index && x in b.index ==> a.index[x] == b.index[x])
    ensures SameTrail(VisitAll(now, a, ids, visit).store, VisitAll(now, b, ids, visit).store, s)
  {
    assert forall i :: 0 <= i < |ids| ==> (Passed(now, a, ids[i], visit(ids[i])) <==> Passed(now, b, ids[i], visit(ids[i])));
    assert Comes(now, a, ids, visit, s) <==> Comes(now, b, ids, visit, s);
    PassRemovesIff(now, a, ids, visit, s);
    PassRemovesIff(now, b, ids, visit, s);
  }

  /**
    * The two groups of a pass do not disturb one another: a listing that fails and errors among the visits
    * of one group leave what happens to the sandboxes of the other as it would be without it.
    */
  lemma GroupsDoNotInterfere(now: nat, st: Store, diagnose: Option<seq<Sid>>, action: Option<seq<Sid>>, visit: Sid -> Visit, s: Sid)
    requires diagnose.Some? && action.Some? ==> forall x :: x in diagnose.value ==> x !in action.value
    ensures var t := Pass(now, st, diagnose, action, visit);
            && (diagnose.Some? && s in diagnose.value ==> SameTrail(t, VisitAll(now, st, diagnose.value, visit).store, s))
            && (action.Some? && s in action.value ==> SameTrail(t, VisitAll(now, st, action.value, visit).store, s))
            && ((diagnose.None? || s !in diagnose.value) && (action.None? || s !in action.value) ==> SameTrail(t, st, s))
  {
    hide VisitAll, VisitOne;
    var mid := VisitListed(now, st, diagnose, visit);
    if diagnose.Some? {
      PassFrame(now, st, diagnose.value, visit);
    }
    if action.Some? {
      PassFrame(now, mid, action.value, visit);
      if s in action.value {
        PassIsLocal(now, mid, st, action.value, visit, s);
      }
    }
  }

  lemma {:induction false} PassShrinks(now: nat, st: Store, ids: seq<Sid>, visit: Sid -> Visit)
    ensures VisitAll(now, st, ids, visit).store.live <= st.live
    decreases |ids|
  {
    if ids != [] {
      PassShrinks(now, VisitOne(now, st, ids[0], visit(ids[0])).store, ids[1..], visit);
    }
  }

  lemma WithoutTwice(st: Store, a: set<Sid>, b: set<Sid>)
    ensures Without(Without(st, a), b) == Without(st, a + b)
  {
    assert st.live - a - b == st.live - (a + b);
    assert st.index - a - b == st.index - (a + b);
  }

  lemma CalmPassIsClean(now: nat, st: Store, diagnose: seq<Sid>, action: seq<Sid>, visit: Sid -> Visit)
    requires CalmPass(Some(diagnose), Some(action), visit)
    requires Lists(st, Diagnose, diagnose) && Lists(st, Action, action)
    ensures var t := Pass(now, st, Some(diagnose), Some(action), visit);
            t == Without(st, Orphans(now, st, diagnose + action)) && OnePerKey(t)
  {
    var one, two := Orphans(now, st, diagnose), Orphans(now, st, action);
    var mid := Without(st, one);
    CalmPassRemovesOrphans(now, st, diagnose, visit);
    CalmPassRemovesOrphans(now, mid, action, visit);
    assert one + Orphans(now, mid, action) == one + two;
    WithoutTwice(st, one, Orphans(now, mid, action));
    WithoutTwice(st, one, two);
    assert Orphans(now, st, diagnose + action) == one + two;
    var all := Orphans(now, st, diagnose + action);
    AllBound(now, st, diagnose, action, Without(st, all));
  }

  lemma AllBound(now: nat, st: Store, diagnose: seq<Sid>, action: seq<Sid>, t: Store)
    requires Lists(st, Diagnose, diagnose) && Lists(st, Action, action)
    requires t == Without(st, Orphans(now, st, diagnose + action))
    ensures OnePerKey(t)
  {
    forall s | s in t.live && s in t.index
      ensures t.index[s] in t.forward && t.forward[t.index[s]].sid == s
    {
      assert s in diagnose + action;
    }
  }

  // ----------------------------------------------------------------------------- the object

  class SandboxManager {
    const cfg: Config
    const reliable: bool    // Redis applies every rollback of a routing key
    var now: nat
    var forward: map<Key, Entry>
    var index: map<Sid, Key>
    var flags: set<Sid>
    var live: set<Sid>
    ghost var log: seq<Event>
    ghost var trace: State

    function Stores(): Store
      reads this
    {
      Store(forward, index, flags, live)
    }

    ghost predicate Mirrors()
      reads this
    {
      !cfg.distributed && trace.now == now && Shown(trace) == Stores()
    }

    ghost predicate Running(me: Pid, p: Proc)
      reads this
    {
      Mirrors() && At(cfg, reliable, log, trace, me, p) && !p.got
    }

    /** The stores are those of a state that the protocol reaches by the events of the log, with no call in progress. */
    ghost predicate Valid()
      reads this
    {
      Mirrors() && AtRest(cfg, reliable, log, trace)
    }

    constructor (cfg: Config, reliable: bool)
      requires !cfg.distributed
      ensures Valid() && now == 0 && Stores() == Store(map[], map[], {}, {})
      ensures this.cfg == cfg && this.reliable == reliable
    {
      this.cfg, this.reliable, now := cfg, reliable, 0;
      forward, index, flags, live := map[], map[], {}, {};
      log, trace := [], Init();
    }

    /** Something happens that is no step of a call. */
    ghost method Record(e: Event)
      requires AtRest(cfg, reliable, log, trace) && (e.Tick? || e.Vanish?)
      modifies this`log, this`trace
      ensures AtRest(cfg, reliable, log, trace) && old(log) <= log && trace == Apply(cfg, old(trace), e)
    {
      StillReached(cfg, reliable, log, trace, e);
      log, trace := log + [e], Apply(cfg, trace, e);
    }

    /** One move of the process `me`, from `p` to `next`. */
    ghost method Step(me: Pid, p: Proc, o: Obs, next: Proc, f: Fx)
      requires At(cfg, reliable, log, trace, me, p) && Makes(cfg, trace, p, o, Move(next, f)) && (reliable ==> !Careless(p, o))
      modifies this`log, this`trace
      ensures At(cfg, reliable, log, trace, me, next) && (next.pc.Gone? ==> AtRest(cfg, reliable, log, trace)) && old(log) <= log
      ensures trace.now == old(trace).now && Shown(trace) == Effect(cfg, trace.now, Shown(old(trace)), f)
      ensures trace.owner == (if f.Provision? then old(trace).owner[f.sid := f.key] else old(trace).owner)
      ensures trace.booted == (if f.Booted? then old(trace).booted + {f.sid} else old(trace).booted)
      ensures trace.served == (if f.Serving? then old(trace).served + {Service(f.key, f.sid)} else old(trace).served)
    {
      hide At, AtRest, Makes, Commit;
      MoveAt(cfg, reliable, log, trace, me, p, o, Move(next, f));
      EffectShown(cfg, trace, me, next.rid, f);
      EffectRecorded(cfg, trace, me, next.rid, f);
      log, trace := log + [Do(me, o)], After(cfg, trace, me, Move(next, f));
      if next.pc.Gone? {
        RestsAt(cfg, reliable, log, trace, me, next);
      }
    }

    method Tick(seconds: nat)
      requires Valid()
      modifies this
      ensures Valid() && now == old(now) + seconds && Stores() == old(Stores()) && old(log) <= log
    {
      Record(Event.Tick(seconds));
      now := now + seconds;
    }

    /** The platform loses a sandbox. */
    method Vanish(s: Sid)
      requires Valid()
      modifies this
      ensures Valid() && now == old(now) && Stores() == old(Stores()).(live := old(live) - {s}) && old(log) <= log
    {
      Record(Event.Vanish(s));
      live := live - {s};
    }

    // ------------------------------------------------------------------ get_or_create

    ghost method Start(p: Proc) returns (me: Pid)
      requires Valid() && Starting(p) && p.rid == 0
      modifies this`log, this`trace
      ensures Running(me, p) && old(log) <= log && trace == old(trace).(procs := old(trace).procs[me := p]) && trace.local == map[]
    {
      hide At, AtRest;
      me := |log|;
      StartsAt(cfg, reliable, log, trace, p);
      log, trace := log + [Spawn(me, p)], trace.(procs := trace.procs[me := p]);
    }

    /** Taking the local lock. */
    ghost method Enter(key: Key) returns (me: Pid, p: Proc)
      requires Valid()
      modifies this`log, this`trace
      ensures Running(me, p) && p == Proc(0, key, Lookup, 0, false, 0, false, [])
      ensures old(log) <= log && trace.owner == old(trace).owner
    {
      hide At, AtRest, Makes;
      var q := Proc(0, key, WaitLocal, 0, false, 0, false, []);
      p := q.(pc := Lookup);
      me := Start(q);
      EnterMakes(cfg, trace, q);
      Step(me, q, Done, p, TakeLocal(key));
    }

    /** Giving it back. */
    ghost method Exit(me: Pid, p: Proc) returns (q: Proc)
      requires Running(me, p) && p.pc.UnlockLocal?
      modifies this`log, this`trace
      ensures Running(me, q) && q == p.(pc := if p.ok then Serve else Gone) && (!p.ok ==> Valid()) && old(log) <= log
    {
      hide At, AtRest, Makes;
      q := p.(pc := if p.ok then Serve else Gone);
      ExitMakes(cfg, trace, p);
      Step(me, p, Done, q, FreeLocal(p.key));
    }

    method SlidingGet(ghost me: Pid, ghost p: Proc, key: Key, w: Weather) returns (found: Option<Sid>, ghost q: Proc)
      requires Running(me, p) && p.pc.Lookup? && p.key == key
      modifies this
      ensures Running(me, q) && q == p.(pc := if found.Some? then Ensure else Create, sid := q.sid)
      ensures found.Some? ==> q.sid == found.value
      ensures found == Found(now, old(Stores()), key, w) && Stores() == Slid(cfg, now, old(Stores()), key, w)
      ensures now == old(now) && old(log) <= log && trace.owner == old(trace).owner
    {
      hide At, AtRest, Makes;
      if !w.get.Good? {
        q := p.(pc := Create);
        LookupMakes(cfg, trace, p, Heard(w.get));
        Step(me, p, Heard(w.get), q, Nothing);
        return None, q;
      }
      found := if key in forward && now < forward[key].expires then Some(forward[key].sid) else None;
      if found.None? {
        q := p.(pc := Create);
        LookupMakes(cfg, trace, p, Seen(None));
        Step(me, p, Seen(None), q, Nothing);
        return;
      }
      ghost var r := p.(pc := Refresh, sid := found.value);
      LookupMakes(cfg, trace, p, Seen(found));
      Step(me, p, Seen(found), r, Nothing);
      q := r.(pc := if w.slide.Good? then Ensure else Create);
      WriteBack(me, r, key, found.value, w);
      if !w.slide.Good? {
        found := None;
      }
    }

    method WriteBack(ghost me: Pid, ghost r: Proc, key: Key, s: Sid, w: Weather)
      requires Running(me, r) && r.pc.Refresh? && r.key == key && r.sid == s
      modifies this
      ensures Running(me, r.(pc := if w.slide.Good? then Ensure else Create))
      ensures Stores() == old(Stores()).(forward := Bind(old(forward), key, s, now + cfg.sessionTtl, w.slide))
      ensures now == old(now) && old(log) <= log && trace.owner == old(trace).owner
    {
      hide At, AtRest, Makes;
      RefreshMakes(cfg, trace, r, Heard(w.slide));
      Step(me, r, Heard(w.slide), r.(pc := if w.slide.Good? then Ensure else Create), BindTo(key, s, Applied(w.slide)));
      forward := Bind(forward, key, s, now + cfg.sessionTtl, w.slide);
    }

    method BindNew(ghost me: Pid, ghost p: Proc, key: Key, s: Sid, w: Weather)
      requires Running(me, p) && p.pc.PutForward? && p.key == key && p.sid == s
      modifies this
      ensures Running(me, p.(pc := PutIndex))
      ensures Stores() == old(Stores()).(forward := Bind(old(forward), key, s, now + cfg.sessionTtl, w.bind))
      ensures now == old(now) && old(log) <= log
    {
      hide At, AtRest, Makes;
      PutForwardMakes(cfg, trace, p, Heard(w.bind));
      Step(me, p, Heard(w.bind), p.(pc := PutIndex), BindTo(key, s, Applied(w.bind)));
      forward := Bind(forward, key, s, now + cfg.sessionTtl, w.bind);
    }

    method Register(ghost me: Pid, ghost p: Proc, key: Key, s: Sid, w: Weather) returns (ghost q: Proc)
      requires Running(me, p) && p.pc.PutForward? && p.key == key && p.sid == s
      modifies this
      ensures Running(me, q) && q == p.(pc := CheckBoot)
      ensures Stores() == Registered(cfg, now, old(Stores()), key, s, w)
      ensures now == old(now) && old(log) <= log
    {
      hide At, AtRest, Makes;
      ghost var r := p.(pc := PutIndex);
      BindNew(me, p, key, s, w);
      q := r.(pc := CheckBoot);
      PutIndexMakes(cfg, trace, r, Heard(w.register));
      Step(me, r, Heard(w.register), q, PutMeta(s, key, Applied(w.register)));
      if Applied(w.register) {
        index := index[s := key];
      }
    }

    method BootstrapOnce(ghost me: Pid, ghost p: Proc, key: Key, s: Sid, w: Weather) returns (client: Option<Sid>, ghost q: Proc)
      requires Running(me, p) && p.pc.CheckBoot? && p.key == key && p.sid == s && s in live
      requires reliable ==> Applied(w.rollback)
      modifies this
      ensures Running(me, q) && q == p.(pc := UnlockLocal, ok := client.Some?)
      ensures client.Some? ==> client.value == s
      ensures Answer(Stores(), client) == Booting(old(Stores()), key, s, w)
      ensures now == old(now) && old(log) <= log
    {
      hide At, AtRest, Makes;
      if w.flag.Good? && s in flags {
        q := p.(pc := UnlockLocal, ok := true);
        CheckBootMakes(cfg, trace, p, Obs.Flagged(true));
        Step(me, p, Obs.Flagged(true), q, Nothing);
        return Some(s), q;
      }
      ghost var r := p.(pc := Boot);
      CheckBootMakes(cfg, trace, p, if w.flag.Good? then Obs.Flagged(false) else Heard(w.flag));
      Step(me, p, if w.flag.Good? then Obs.Flagged(false) else Heard(w.flag), r, Nothing);
      if w.boots {
        q := p.(pc := UnlockLocal, ok := true);
        client := Finish(me, r, s, w);
      } else {
        q := p.(pc := UnlockLocal, ok := false);
        RollBack(me, r, key, w);
        client := None;
      }
    }

    method Finish(ghost me: Pid, ghost r: Proc, s: Sid, w: Weather) returns (client: Option<Sid>)
      requires Running(me, r) && r.pc.Boot? && r.sid == s && s in live && w.boots
      modifies this
      ensures Running(me, r.(pc := UnlockLocal, ok := true)) && client == Some(s)
      ensures Stores() == old(Stores()).(flags := if Applied(w.mark) then old(flags) + {s} else old(flags))
      ensures now == old(now) && old(log) <= log
    {
      hide At, AtRest, Makes;
      BootMakes(cfg, trace, r, Done);
      Step(me, r, Done, r.(pc := Mark), Booted(s));
      MarkBootstrapped(me, r.(pc := Mark), s, w);
      client := Some(s);
    }

    method MarkBootstrapped(ghost me: Pid, ghost m: Proc, s: Sid, w: Weather)
      requires Running(me, m) && m.pc.Mark? && m.sid == s
      modifies this
      ensures Running(me, m.(pc := UnlockLocal, ok := true))
      ensures Stores() == old(Stores()).(flags := if Applied(w.mark) then old(flags) + {s} else old(flags))
      ensures now == old(now) && old(log) <= log
    {
      hide At, AtRest, Makes;
      MarkMakes(cfg, trace, m, Heard(w.mark));
      Step(me, m, Heard(w.mark), m.(pc := UnlockLocal, ok := true), When(Applied(w.mark), Flag(s)));
      if Applied(w.mark) {
        flags := flags + {s};
      }
    }

    method RollBack(ghost me: Pid, ghost r: Proc, key: Key, w: Weather)
      requires Running(me, r) && r.pc.Boot? && r.key == key && (reliable ==> Applied(w.rollback))
      modifies this
      ensures Running(me, r.(pc := UnlockLocal, ok := false))
      ensures Stores() == old(Stores()).(forward := Unbound(old(forward), key, w.rollback))
      ensures now == old(now) && old(log) <= log
    {
      hide At, AtRest, Makes;
      ghost var b := r.(pc := Rollback);
      BootMakes(cfg, trace, r, Obs.Error(false));
      Step(me, r, Obs.Error(false), b, Nothing);
      RollbackMakes(cfg, trace, b, Heard(w.rollback));
      Step(me, b, Heard(w.rollback), b.(pc := UnlockLocal, ok := false), When(Applied(w.rollback), Unbind(key)));
      if Applied(w.rollback) {
        forward := forward - {key};
      }
    }

    method CreateSandbox(ghost me: Pid, ghost p: Proc, key: Key, w: Weather) returns (client: Option<Sid>, ghost q: Proc)
      requires Running(me, p) && p.pc.Create? && p.key == key
      requires w.created.Some? ==> w.created.value !in trace.owner
      requires reliable ==> Applied(w.rollback)
      modifies this
      ensures Running(me, q) && q == p.(pc := UnlockLocal, ok := client.Some?, sid := q.sid)
      ensures client.Some? ==> q.sid == client.value
      ensures Answer(Stores(), client) == Created(cfg, now, old(Stores()), key, w)
      ensures now == old(now) && old(log) <= log
    {
      hide At, AtRest, Makes;
      if w.created.None? {
        q := p.(pc := UnlockLocal, ok := false);
        CreateMakes(cfg, trace, p, Obs.Error(false));
        Step(me, p, Obs.Error(false), q, Nothing);
        return None, q;
      }
      var s := w.created.value;
      q := p.(pc := PutForward, sid := s);
      CreateMakes(cfg, trace, p, Fresh(s));
      Step(me, p, Fresh(s), q, Provision(s, key));
      live := live + {s};
      q := Register(me, q, key, s, w);
      client, q := BootstrapOnce(me, q, key, s, w);
    }

    /** `ensure_running` on the sandbox found, and the reset of a stale binding. */
    method Reuse(ghost me: Pid, ghost p: Proc, key: Key, s: Sid, w: Weather) returns (client: Option<Sid>, stale: bool, ghost q: Proc)
      requires Running(me, p) && p.pc.Ensure? && p.key == key && p.sid == s
      modifies this
      ensures Running(me, q) && q == p.(pc := if stale then Create else UnlockLocal, ok := if stale then p.ok else client.Some?)
      ensures stale == (w.wakes && s !in old(live)) && client == (if w.wakes && s in old(live) then Some(s) else None)
      ensures Stores() == if stale then old(Stores()).(forward := Unbound(old(forward), key, w.reset)) else old(Stores())
      ensures now == old(now) && old(log) <= log && trace.owner == old(trace).owner
    {
      hide At, AtRest, Makes;
      stale := w.wakes && s !in live;
      if !stale {
        client := if w.wakes then Some(s) else None;
        q := p.(pc := UnlockLocal, ok := client.Some?);
        EnsureMakes(cfg, trace, p, if w.wakes then Done else Obs.Error(false));
        Step(me, p, if w.wakes then Done else Obs.Error(false), q, Nothing);
        return;
      }
      EnsureMakes(cfg, trace, p, NotFound);
      Step(me, p, NotFound, p.(pc := Reset), Nothing);
      q := p.(pc := Create);
      ResetStale(me, p.(pc := Reset), key, w);
      client := None;
    }

    method ResetStale(ghost me: Pid, ghost r: Proc, key: Key, w: Weather)
      requires Running(me, r) && r.pc.Reset? && r.key == key
      modifies this
      ensures Running(me, r.(pc := Create))
      ensures Stores() == old(Stores()).(forward := Unbound(old(forward), key, w.reset))
      ensures now == old(now) && old(log) <= log && trace.owner == old(trace).owner
    {
      hide At, AtRest, Makes;
      ResetMakes(cfg, trace, r, Heard(w.reset));
      Step(me, r, Heard(w.reset), r.(pc := Create), When(Applied(w.reset), Unbind(key)));
      if Applied(w.reset) {
        forward := forward - {key};
      }
    }

    /** Up to the release of the local lock; a client goes to the command that asked for it. */
    method GetOrCreate(key: Key, w: Weather) returns (client: Option<Sid>, ghost me: Pid, ghost p: Proc)
      requires Valid() && (w.created.Some? ==> w.created.value !in trace.owner)
      requires reliable ==> Applied(w.rollback)
      modifies this
      ensures Answer(Stores(), client) == Call(cfg, now, old(Stores()), key, w)
      ensures Running(me, p) && p.key == key && p.ok == client.Some? && (client.Some? ==> p.sid == client.value)
      ensures p.pc == (if client.Some? then Serve else Gone) && (client.None? ==> Valid())
      ensures now == old(now) && old(log) <= log
    {
      hide At, AtRest, Makes;
      me, p := Enter(key);
      var found;
      found, p := SlidingGet(me, p, key, w);
      var stale := true;
      if found.Some? {
        client, stale, p := Reuse(me, p, key, found.value, w);
      }
      if stale {
        client, p := CreateSandbox(me, p, key, w);
      }
      p := Exit(me, p);
    }

    /**
      * A command: it runs, if at all, in the sandbox `get_or_create` answers, which belongs
      * to its key and, when rollbacks are applied, is bootstrapped. One that raises may have run there.
      */
    method Exec(key: Key, w: Weather, runs: Reply) returns (ran: Option<Sid>)
      requires Valid() && (w.created.Some? ==> w.created.value !in trace.owner)
      requires reliable ==> Applied(w.rollback)
      modifies this
      ensures Valid() && now == old(now) && old(log) <= log
      ensures Stores() == Call(cfg, now, old(Stores()), key, w).store
      ensures var client := Call(cfg, now, old(Stores()), key, w).client;
              && ran == (if runs.Good? then client else None)
              && (client.Some? ==> Owned(trace, client.value, key) && (reliable ==> client.value in trace.booted))
              && (client.Some? && Applied(runs) ==> Service(key, client.value) in trace.served)
    {
      hide At, AtRest, Makes;
      ghost var me, p;
      ran, me, p := GetOrCreate(key, w);
      if ran.None? {
        return;
      }
      Run(me, p, runs);
      if !runs.Good? {
        ran := None;
      }
    }

    ghost method Run(me: Pid, p: Proc, runs: Reply)
      requires Running(me, p) && p.pc.Serve? && p.ok
      modifies this`log, this`trace
      ensures Valid() && old(log) <= log
      ensures Owned(trace, p.sid, p.key) && (reliable ==> p.sid in trace.booted)
      ensures Applied(runs) ==> Service(p.key, p.sid) in trace.served
    {
      hide At, AtRest, Makes;
      ServedWell(me, p);
      var o := if runs.Good? then Done else Obs.Error(runs.applied);
      ServeMakes(cfg, trace, p, o);
      Step(me, p, o, p.(pc := Gone), When(Applied(runs), Serving(p.key, p.sid)));
    }

    /** The theorems about runs, for the process that is about to be served. */
    lemma ServedWell(me: Pid, p: Proc)
      requires Running(me, p) && p.ok
      ensures Owned(trace, p.sid, p.key) && (reliable ==> p.sid in trace.booted)
    {
      var A := {OneReplica(0, p.key)} + (if reliable then {SetupKept(p.key)} else {});
      assert AllPromised(reliable, A) && IsRun(cfg, A, Init(), log, trace);
      NeverRebind(cfg, A, log, trace, [], trace);
      if reliable {
        Exclusion.RestIsLocked(cfg, A, A, [], Init(), p.key);
        Exclusion.LockedRunsExclude(cfg, A, A, Init(), log, trace, p.key);
        Bootstrap.BootstrappedOnReturn(cfg, A + {Exclusive(p.key)}, log, trace, p.key);
      }
    }

    // ---------------------------------------------------------------------- end_session

    method EndGroup(key: Key, w: Ending) returns (raised: bool)
      requires Valid()
      modifies this
      ensures Valid() && now == old(now) && old(log) <= log
      ensures Ended(Stores(), raised) == EndOne(now, old(Stores()), key, w)
    {
      hide At, AtRest, Makes;
      ghost var p := Proc(0, key, EPeek, 0, false, 0, false, []);
      ghost var me := Start(p);
      if !w.peek.Good? {
        EPeekMakes(cfg, trace, p, Heard(w.peek));
        Step(me, p, Heard(w.peek), p.(pc := Gone), Nothing);
        return true;
      }
      var found := if key in forward && now < forward[key].expires then Some(forward[key].sid) else None;
      if found.None? {
        EPeekMakes(cfg, trace, p, Seen(None));
        Step(me, p, Seen(None), p.(pc := Gone), Nothing);
        return false;
      }
      var s := found.value;
      ghost var q := p.(pc := EDelete, sid := s);
      EPeekMakes(cfg, trace, p, Seen(found));
      Step(me, p, Seen(found), q, Nothing);
      DeleteEnded(me, q, s, w.deletes);
      raised := CleanUp(me, q.(pc := EUnbind), key, s, w);
    }

    method DeleteEnded(ghost me: Pid, ghost q: Proc, s: Sid, deletes: Deletion)
      requires Running(me, q) && q.pc.EDelete? && q.sid == s
      modifies this
      ensures Running(me, q.(pc := EUnbind)) && now == old(now) && old(log) <= log
      ensures Stores() == old(Stores()).(live := if Removes(deletes) then old(live) - {s} else old(live))
    {
      hide At, AtRest, Makes;
      ghost var o := match deletes
        case Accepted => if s in live then Done else NotFound
        case Raised(applied) => Obs.Error(applied)
        case Interrupted(applied) => Cancelled(applied);
      EDeleteMakes(cfg, trace, q, o);
      Step(me, q, o, q.(pc := EUnbind), When(Landed(o), Delete(s)));
      if Removes(deletes) {
        live := live - {s};
      }
    }

    method UnbindEnded(ghost me: Pid, ghost q: Proc, key: Key, w: Ending)
      requires Running(me, q) && q.pc.EUnbind? && q.key == key
      modifies this
      ensures Running(me, q.(pc := if w.unbind.Good? then EDrop else Gone)) && (!w.unbind.Good? ==> Valid())
      ensures now == old(now) && old(log) <= log
      ensures Stores() == old(Stores()).(forward := Unbound(old(forward), key, w.unbind))
    {
      hide At, AtRest, Makes;
      EUnbindMakes(cfg, trace, q, Heard(w.unbind));
      Step(me, q, Heard(w.unbind), q.(pc := if w.unbind.Good? then EDrop else Gone), When(Applied(w.unbind), Unbind(key)));
      if Applied(w.unbind) {
        forward := forward - {key};
      }
    }

    method DropEnded(ghost me: Pid, ghost r: Proc, s: Sid, w: Ending)
      requires Running(me, r) && r.pc.EDrop? && r.sid == s
      modifies this
      ensures Valid() && now == old(now) && old(log) <= log
      ensures Stores() == old(Stores()).(index := if Applied(w.drop) then old(index) - {s} else old(index))
    {
      hide At, AtRest, Makes;
      EDropMakes(cfg, trace, r, Heard(w.drop));
      Step(me, r, Heard(w.drop), r.(pc := Gone), When(Applied(w.drop), DropMeta(s)));
      if Applied(w.drop) {
        index := index - {s};
      }
    }

    /** The `finally` of `end_session`. */
    method CleanUp(ghost me: Pid, ghost q: Proc, key: Key, s: Sid, w: Ending) returns (raised: bool)
      requires Running(me, q) && q.pc.EUnbind? && q.sid == s && q.key == key
      modifies this
      ensures Valid() && now == old(now) && old(log) <= log
      ensures Stores() == old(Stores()).(forward := Unbound(old(forward), key, w.unbind),
                                         index := if w.unbind.Good? && Applied(w.drop) then old(index) - {s} else old(index))
      ensures raised == (!w.unbind.Good? || !w.deletes.Accepted? || !w.drop.Good?)
    {
      hide At, AtRest, Makes;
      UnbindEnded(me, q, key, w);
      if !w.unbind.Good? {
        return true;
      }
      DropEnded(me, q.(pc := EDrop), s, w);
      raised := !w.deletes.Accepted? || !w.drop.Good?;
    }

    /** Both groups in turn; the second is left alone when the first raises. */
    method EndSession(oid: string, session: string, diagnose: Ending, action: Ending) returns (raised: bool)
      requires Valid()
      modifies this
      ensures Valid() && now == old(now) && old(log) <= log
      ensures var one := EndOne(now, old(Stores()), Key(oid, session, Diagnose), diagnose);
              Ended(Stores(), raised) == if one.raised then one else EndOne(now, one.store, Key(oid, session, Action), action)
      ensures !raised ==> forall g: Group :: Over(now, old(Stores()), Stores(), Key(oid, session, g))
    {
      hide At, AtRest, Makes;
      ghost var st := Stores();
      SessionEnds(now, st, Key(oid, session, Diagnose), Key(oid, session, Action), diagnose, action);
      raised := EndGroup(Key(oid, session, Diagnose), diagnose);
      if !raised {
        raised := EndGroup(Key(oid, session, Action), action);
      }
      forall g: Group | !raised
        ensures Over(now, st, Stores(), Key(oid, session, g))
      {
        assert g == Diagnose || g == Action;
      }
    }

    // --------------------------------------------------------------------- reap_orphans

    method DeleteOrphan(ghost me: Pid, ghost p: Proc, s: Sid, v: Visit) returns (clean: bool, ghost q: Proc)
      requires Running(me, p) && p.pc.RDelete? && p.sid == s && p.todo != []
      modifies this
      ensures clean ==> Running(me, q) && q.pc.RNext? && q.todo == p.todo[1..]
      ensures !clean ==> Valid()
      ensures Visited(Stores(), clean) == Removed(old(Stores()), s, v)
      ensures now == old(now) && old(log) <= log && trace.owner == old(trace).owner
    {
      hide At, AtRest, Makes;
      ghost var o := if !v.deletes.Good? then Obs.Error(v.deletes.applied) else if s in live then Done else NotFound;
      q := p.(pc := if v.deletes.Good? then RDrop else Gone);
      RDeleteMakes(cfg, trace, p, o);
      Step(me, p, o, q, When(Landed(o), Delete(s)));
      if Applied(v.deletes) {
        live := live - {s};
      }
      if !v.deletes.Good? {
        return false, q;
      }
      q := DropOrphan(me, q, s, v);
      clean := v.drop.Good?;
    }

    method DropOrphan(ghost me: Pid, ghost p: Proc, s: Sid, v: Visit) returns (ghost q: Proc)
      requires Running(me, p) && p.pc.RDrop? && p.sid == s && p.todo != []
      modifies this
      ensures v.drop.Good? ==> Running(me, q) && q.pc.RNext? && q.todo == p.todo[1..]
      ensures !v.drop.Good? ==> Valid()
      ensures Stores() == old(Stores()).(index := if Applied(v.drop) then old(index) - {s} else old(index))
      ensures now == old(now) && old(log) <= log && trace.owner == old(trace).owner
    {
      hide At, AtRest, Makes;
      q := p.(pc := if v.drop.Good? then RNext else Gone, todo := p.todo[1..]);
      RDropMakes(cfg, trace, p, Heard(v.drop));
      Step(me, p, Heard(v.drop), q, When(Applied(v.drop), DropMeta(s)));
      if Applied(v.drop) {
        index := index - {s};
      }
    }

    /** Reads the reverse index; `meta` is the entry found. */
    method ReadMeta(ghost me: Pid, ghost p: Proc, s: Sid, v: Visit) returns (meta: Option<Key>, ghost q: Proc)
      requires Running(me, p) && p.pc.RNext? && p.todo != [] && p.todo[0] == s
      modifies this
      ensures meta == if v.meta && s in index then Some(index[s]) else None
      ensures !v.meta ==> Valid()
      ensures v.meta ==> Running(me, q)
      ensures v.meta ==> q == if meta.None? then p.(todo := p.todo[1..]) else p.(pc := RPeek, key := meta.value, sid := s)
      ensures Stores() == old(Stores()) && now == old(now) && old(log) <= log && trace.owner == old(trace).owner
    {
      hide At, AtRest, Makes;
      meta := if v.meta && s in index then Some(index[s]) else None;
      q := if !v.meta then p.(pc := Gone)
           else if meta.None? then p.(todo := p.todo[1..])
           else p.(pc := RPeek, key := meta.value, sid := s);
      ghost var o := if v.meta then Meta(meta) else Lost(false);
      RNextMakes(cfg, trace, p, o);
      Step(me, p, o, q, Nothing);
    }

    /** Reads the routing key without sliding. */
    method PeekOwner(ghost me: Pid, ghost p: Proc, key: Key, s: Sid, v: Visit) returns (bound: bool, ghost q: Proc)
      requires Running(me, p) && p.pc.RPeek? && p.sid == s && p.key == key && p.todo != []
      modifies this
      ensures bound == (Hit(now, Stores(), key) == Some(s))
      ensures !v.peek ==> Valid()
      ensures v.peek ==> Running(me, q) && q == if bound then p.(pc := RNext, todo := p.todo[1..]) else p.(pc := RDelete)
      ensures Stores() == old(Stores()) && now == old(now) && old(log) <= log && trace.owner == old(trace).owner
    {
      hide At, AtRest, Makes;
      var peeked := if key in forward && now < forward[key].expires then Some(forward[key].sid) else None;
      bound := peeked == Some(s);
      q := if !v.peek then p.(pc := Gone) else if bound then p.(pc := RNext, todo := p.todo[1..]) else p.(pc := RDelete);
      ghost var o := if v.peek then Seen(peeked) else Lost(false);
      RPeekMakes(cfg, trace, p, o);
      Step(me, p, o, q, Nothing);
    }

    method ReapOne(ghost me: Pid, ghost p: Proc, s: Sid, v: Visit) returns (clean: bool, ghost q: Proc)
      requires Running(me, p) && p.pc.RNext? && p.todo != [] && p.todo[0] == s
      modifies this
      ensures clean ==> Running(me, q) && q.pc.RNext? && q.todo == p.todo[1..]
      ensures !clean ==> Valid()
      ensures Visited(Stores(), clean) == VisitOne(now, old(Stores()), s, v)
      ensures now == old(now) && old(log) <= log && trace.owner == old(trace).owner
    {
      hide At, AtRest, Makes;
      var meta;
      meta, q := ReadMeta(me, p, s, v);
      if !v.meta || meta.None? {
        return v.meta, q;
      }
      var bound;
      bound, q := PeekOwner(me, q, meta.value, s, v);
      if !v.peek || bound {
        return v.peek, q;
      }
      clean, q := DeleteOrphan(me, q, s, v);
    }

    method ReapGroup(g: Group, listed: Option<seq<Sid>>, visit: Sid -> Visit) returns (clean: bool)
      requires Valid() && (listed.Some? ==> Listing(trace, g, listed.value))
      modifies this
      ensures Valid() && now == old(now) && old(log) <= log && trace.owner == old(trace).owner
      ensures Visited(Stores(), clean) ==
                if listed.Some? then VisitAll(now, old(Stores()), listed.value, visit) else Visited(old(Stores()), false)
    {
      hide At, AtRest, Makes;
      ghost var me, p := List(g, listed);
      if listed.None? {
        return false;
      }
      clean := ReapListed(me, p, listed.value, visit);
    }

    ghost method List(g: Group, listed: Option<seq<Sid>>) returns (me: Pid, q: Proc)
      requires Valid() && (listed.Some? ==> Listing(trace, g, listed.value))
      modifies this`log, this`trace
      ensures listed.None? ==> Valid()
      ensures listed.Some? ==> Running(me, q) && q.pc.RNext? && q.todo == listed.value
      ensures old(log) <= log && trace.owner == old(trace).owner
    {
      hide At, AtRest, Makes;
      var p := Proc(0, Key("", "", g), RList, 0, false, 0, false, []);
      var o := if listed.Some? then Listed(listed.value) else Obs.Error(false);
      q := if listed.Some? then p.(pc := RNext, todo := listed.value) else p.(pc := Gone);
      me := Start(p);
      RListMakes(cfg, trace, p, o);
      Step(me, p, o, q, Nothing);
    }

    method ReapListed(ghost me: Pid, ghost p: Proc, ids: seq<Sid>, visit: Sid -> Visit) returns (clean: bool)
      requires Running(me, p) && p.pc.RNext? && p.todo == ids
      modifies this
      ensures Valid() && now == old(now) && old(log) <= log && trace.owner == old(trace).owner
      ensures Visited(Stores(), clean) == VisitAll(now, old(Stores()), ids, visit)
    {
      hide At, AtRest, Makes;
      ghost var q := p;
      for i := 0 to |ids|
        invariant Running(me, q) && q.pc.RNext? && q.todo == ids[i..]
        invariant VisitAll(now, Stores(), ids[i..], visit) == VisitAll(now, old(Stores()), ids, visit)
        invariant now == old(now) && old(log) <= log && trace.owner == old(trace).owner
      {
        assert ids[i..][1..] == ids[i + 1..];
        clean, q := ReapOne(me, q, ids[i], visit(ids[i]));
        if !clean {
          return;
        }
      }
      Close(me, q);
      clean := true;
    }

    ghost method Close(me: Pid, q: Proc)
      requires Running(me, q) && q.pc.RNext? && q.todo == []
      modifies this`log, this`trace
      ensures Valid() && old(log) <= log && trace.owner == old(trace).owner
    {
      hide At, AtRest, Makes;
      RDoneMakes(cfg, trace, q);
      Step(me, q, Done, q.(pc := Gone), Nothing);
    }

    /**
      * One pass over both groups; an error in one does not stop the other. Without errors
      * it removes exactly the orphans, and leaves at most one sandbox per key.
      */
    method ReapOrphans(diagnose: Option<seq<Sid>>, action: Option<seq<Sid>>, visit: Sid -> Visit)
      requires Valid()
      requires diagnose.Some? ==> Listing(trace, Diagnose, diagnose.value)
      requires action.Some? ==> Listing(trace, Action, action.value)
      modifies this
      ensures Valid() && now == old(now) && old(log) <= log
      ensures Stores() == Pass(now, old(Stores()), diagnose, action, visit)
      ensures CalmPass(diagnose, action, visit) ==>
                Stores() == Without(old(Stores()), Orphans(now, old(Stores()), diagnose.value + action.value)) && OnePerKey(Stores())
    {
      hide At, AtRest, Makes;
      ghost var st := Stores();
      ListingsCover(diagnose, action);
      var _ := ReapGroup(Diagnose, diagnose, visit);
      PassShrinks(now, st, if diagnose.Some? then diagnose.value else [], visit);
      var _ := ReapGroup(Action, action, visit);
      if CalmPass(diagnose, action, visit) {
        CalmPassIsClean(now, st, diagnose.value, action.value, visit);
      }
    }

    lemma ListingsCover(diagnose: Option<seq<Sid>>, action: Option<seq<Sid>>)
      requires Valid()
      requires diagnose.Some? ==> Listing(trace, Diagnose, diagnose.value)
      requires action.Some? ==> Listing(trace, Action, action.value)
      ensures diagnose.Some? ==> Lists(Stores(), Diagnose, diagnose.value)
      ensures action.Some? ==> Lists(Stores(), Action, action.value)
    {
      if diagnose.Some? {
        ListingCovers(Diagnose, diagnose.value);
      }
      if action.Some? {
        ListingCovers(Action, action.value);
      }
    }

    /** An index entry names the group its sandbox was created in, so the platform's list is complete for the index. */
    lemma ListingCovers(g: Group, ids: seq<Sid>)
      requires Valid() && Listing(trace, g, ids)
      ensures Lists(Stores(), g, ids)
    {
      assert IsRun(cfg, {}, Init(), log, trace);
      RunKeepsInv(cfg, {}, Init(), log, trace);
    }
  }
}
