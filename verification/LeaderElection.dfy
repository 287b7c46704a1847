/**
  * The reaper loop of every replica: try to take the leader lease, make a pass if it
  * was taken (or could not be asked for), and give the lease back by compare-and-delete.
  */
module LeaderElection {
  import opened Options
  import opened TokenLease

  type Rid = nat
  type Token = nat

  datatype Config = Config(lease: nat, elected: bool)

  /** A pass is begun with the token of a lease, or with none when replicas reap unelected. */
  datatype Loop = Sleeping | Reaping(token: Option<Token>, since: nat) | Resigning(token: Option<Token>)

  /** `minted` and `lastWin` are history: which replica minted which token, and the time of the last successful SET. */
  datatype State = State(now: nat, slot: Option<Lease>, loops: map<Rid, Loop>, minted: map<Token, Rid>, lastWin: Option<nat>)

  datatype Event =
    | Tick(seconds: nat)
    | Skip(rid: Rid)                                // flag off: reap without a lease
    | Win(rid: Rid, token: Token)                   // SET NX answered OK
    | Refused(rid: Rid, token: Token)               // SET NX answered nil
    | Unasked(rid: Rid, token: Token, applied: bool) // SET NX raised; reap anyway
    | EndPass(rid: Rid)
    | Resign(rid: Rid, reached: bool)               // the script ran, or Redis raised before it did
    | Die(rid: Rid)

  function Init(): State {
    State(0, None, map[], map[], None)
  }

  function At(st: State, r: Rid): Loop {
    if r in st.loops then st.loops[r] else Sleeping
  }

  predicate Can(c: Config, st: State, e: Event) {
    match e
    case Tick(_) => true
    case Skip(r) => !c.elected && At(st, r).Sleeping?
    case Win(r, t) => c.elected && At(st, r).Sleeping? && t !in st.minted && Free(st.slot, st.now)
    case Refused(r, t) => c.elected && At(st, r).Sleeping? && t !in st.minted && !Free(st.slot, st.now)
    case Unasked(r, t, applied) => c.elected && At(st, r).Sleeping? && t !in st.minted && (applied ==> Free(st.slot, st.now))
    case EndPass(r) => At(st, r).Reaping?
    case Resign(r, _) => At(st, r).Resigning?
    case Die(_) => true
  }

  function Grant(c: Config, st: State, r: Rid, t: Token): State {
    st.(slot := Take(t, st.now, c.lease), lastWin := Some(st.now), minted := st.minted[t := r])
  }

  function Apply(c: Config, st: State, e: Event): State
    requires Can(c, st, e)
  {
    match e
    case Tick(d) => st.(now := st.now + d)
    case Skip(r) => st.(loops := st.loops[r := Reaping(None, st.now)])
    case Win(r, t) => Grant(c, st, r, t).(loops := st.loops[r := Reaping(Some(t), st.now)])
    case Refused(r, t) => st.(minted := st.minted[t := r])
    case Unasked(r, t, applied) =>
      (if applied then Grant(c, st, r, t) else st.(minted := st.minted[t := r])).(loops := st.loops[r := Reaping(None, st.now)])
    case EndPass(r) => st.(loops := st.loops[r := Resigning(st.loops[r].token)])
    case Resign(r, reached) =>
      st.(loops := st.loops[r := Sleeping],
          slot := if reached && st.loops[r].token.Some? then Release(st.slot, st.now, st.loops[r].token.value) else st.slot)
    case Die(r) => st.(loops := st.loops - {r})
  }

  /** Redis answers every election, and a pass ends before its lease does. */
  ghost predicate Healthy(c: Config, st: State, e: Event)
    requires Can(c, st, e)
  {
    && !e.Unasked?
    && (forall r :: At(Apply(c, st, e), r).Reaping? ==> Apply(c, st, e).now < At(Apply(c, st, e), r).since + c.lease)
  }

  ghost predicate IsRun(c: Config, healthy: bool, st: State, es: seq<Event>, t: State)
    decreases |es|
  {
    if es == [] then t == st
    else Can(c, st, es[0]) && (healthy ==> Healthy(c, st, es[0])) && IsRun(c, healthy, Apply(c, st, es[0]), es[1..], t)
  }

  // ---------------------------------------------------------------------- invariants

  function TokenOf(l: Loop): Option<Token> {
    if l.Sleeping? then None else l.token
  }

  /** A replica holds only tokens it minted, and the lease never outlives the last win by more than its length. */
  ghost predicate Inv(c: Config, st: State) {
    && (forall r :: TokenOf(At(st, r)).Some? ==>
          TokenOf(At(st, r)).value in st.minted && st.minted[TokenOf(At(st, r)).value] == r)
    && (st.slot.Some? ==> st.slot.value.token in st.minted && st.lastWin.Some? && st.slot.value.expires <= st.lastWin.value + c.lease)
  }

  lemma StepKeepsInv(c: Config, st: State, e: Event)
    requires Inv(c, st) && Can(c, st, e)
    ensures Inv(c, Apply(c, st, e))
  {
    var t := Apply(c, st, e);
    assert forall r :: At(t, r) == At(st, r) || TokenOf(At(t, r)) == TokenOf(At(st, r)) || TokenOf(At(t, r)).None?
                         || (e == Win(r, TokenOf(At(t, r)).value));
  }

  /** Every replica inside a pass still has the lease it began the pass with. */
  ghost predicate Led(c: Config, st: State) {
    forall r :: At(st, r).Reaping? ==>
      At(st, r).token.Some? && st.slot == Some(Lease(At(st, r).token.value, At(st, r).since + c.lease))
        && st.now < At(st, r).since + c.lease
  }

  lemma StepKeepsLed(c: Config, st: State, e: Event)
    requires c.elected && Inv(c, st) && Led(c, st) && Can(c, st, e) && Healthy(c, st, e)
    ensures Led(c, Apply(c, st, e))
  {
    var t := Apply(c, st, e);
    forall r | At(t, r).Reaping?
      ensures At(t, r).token.Some? && t.slot == Some(Lease(At(t, r).token.value, At(t, r).since + c.lease))
      ensures t.now < At(t, r).since + c.lease
    {
      assert At(t, r) == At(st, r) || e == Win(r, At(t, r).token.value);
    }
  }

  lemma {:induction false} RunKeeps(c: Config, healthy: bool, st: State, es: seq<Event>, t: State)
    requires Inv(c, st) && IsRun(c, healthy, st, es, t) && (healthy && c.elected ==> Led(c, st))
    ensures Inv(c, t) && (healthy && c.elected ==> Led(c, t))
    decreases |es|
  {
    if es != [] {
      StepKeepsInv(c, st, es[0]);
      if healthy && c.elected {
        StepKeepsLed(c, st, es[0]);
      }
      RunKeeps(c, healthy, Apply(c, st, es[0]), es[1..], t);
    }
  }

  // ----------------------------------------------------------------------- properties

  /**
    * Resigning, however late, leaves every other replica's lease alone, whether its holder
    * still reaps, has died, or never heard that it won: the lease goes only if it was taken
    * by the replica that resigns, in the very pass it resigns from.
    */
  lemma ResignSparesOthers(c: Config, healthy: bool, es: seq<Event>, st: State, r: Rid, reached: bool)
    requires IsRun(c, healthy, Init(), es, st) && Can(c, st, Resign(r, reached)) && st.slot.Some?
    ensures st.slot.value.token in st.minted
    ensures st.minted[st.slot.value.token] != r ==> Apply(c, st, Resign(r, reached)).slot == st.slot
    ensures Apply(c, st, Resign(r, reached)).slot != st.slot ==>
              Apply(c, st, Resign(r, reached)).slot == None && TokenOf(At(st, r)) == Some(st.slot.value.token)
  {
    RunKeeps(c, false, Init(), es, st) by { Weaken(c, healthy, Init(), es, st); }
  }

  lemma {:induction false} Weaken(c: Config, healthy: bool, st: State, es: seq<Event>, t: State)
    requires IsRun(c, healthy, st, es, t)
    ensures IsRun(c, false, st, es, t)
    decreases |es|
  {
    if es != [] {
      Weaken(c, healthy, Apply(c, st, es[0]), es[1..], t);
    }
  }

  /** With elections on, Redis reachable and passes shorter than the lease, at most one replica reaps at a time. */
  lemma OneReaperAtATime(c: Config, es: seq<Event>, t: State, r: Rid, q: Rid)
    requires c.elected && IsRun(c, true, Init(), es, t)
    requires At(t, r).Reaping? && At(t, q).Reaping?
    ensures r == q
  {
    RunKeeps(c, true, Init(), es, t);
  }

  /**
    * An election is lost only to a win within the last lease length, so once that long
    * has passed since the last win, whoever won it and whatever became of them, the next
    * replica to ask wins.
    */
  lemma SuccessionIsPrompt(c: Config, healthy: bool, es: seq<Event>, t: State, r: Rid, token: Token)
    requires c.elected && IsRun(c, healthy, Init(), es, t) && At(t, r).Sleeping? && token !in t.minted
    ensures Can(c, t, Refused(r, token)) ==> t.lastWin.Some? && t.now < t.lastWin.value + c.lease
    ensures Can(c, t, Win(r, token)) <==> !Can(c, t, Refused(r, token))
    ensures (t.lastWin.None? || t.now >= t.lastWin.value + c.lease) ==> Can(c, t, Win(r, token))
  {
    Weaken(c, healthy, Init(), es, t);
    RunKeeps(c, false, Init(), es, t);
  }

  // ------------------------------------------------------------- what a resign gives back

  /** The token is used up: it is nobody's to take again, and no lease of it is running. */
  predicate UsedUp(st: State, token: Token) {
    token in st.minted && (st.slot.Some? && st.slot.value.token == token ==> Free(st.slot, st.now))
  }

  lemma {:induction false} StaysUsedUp(c: Config, healthy: bool, st: State, es: seq<Event>, t: State, token: Token)
    requires IsRun(c, healthy, st, es, t) && UsedUp(st, token)
    ensures UsedUp(t, token)
    decreases |es|
  {
    if es != [] {
      StaysUsedUp(c, healthy, Apply(c, st, es[0]), es[1..], t, token);
    }
  }

  /**
    * A resign that reaches Redis gives the lease back: from then on no lease of that pass is ever
    * running again, and if it was running until then, any replica that sleeps can win at once.
    */
  lemma ResignGivesBack(c: Config, healthy: bool, es: seq<Event>, st: State, r: Rid, token: Token, later: seq<Event>, t: State,
                        q: Rid, mine: Token)
    requires c.elected && IsRun(c, healthy, Init(), es, st) && Can(c, st, Resign(r, true)) && At(st, r).token == Some(token)
    requires IsRun(c, healthy, Apply(c, st, Resign(r, true)), later, t)
    ensures t.slot.Some? && t.slot.value.token == token ==> Free(t.slot, t.now)
    ensures st.slot.Some? && st.slot.value.token == token && (q == r || At(st, q).Sleeping?) && mine !in st.minted ==>
              Can(c, Apply(c, st, Resign(r, true)), Win(q, mine))
  {
    Weaken(c, healthy, Init(), es, st);
    RunKeeps(c, false, Init(), es, st);
    assert TokenOf(At(st, r)).Some?;
    StaysUsedUp(c, healthy, Apply(c, st, Resign(r, true)), later, t, token);
  }

  /** Every resign reaches Redis, nobody dies, and no election is applied whose answer is lost. */
  predicate Orderly(e: Event) {
    !e.Die? && (e.Resign? ==> e.reached) && (e.Unasked? ==> !e.applied)
  }

  /** A lease that is running is that of a replica in its pass, or about to resign from it. */
  ghost predicate LeaseIsHeld(st: State) {
    !Free(st.slot, st.now) ==> exists r :: TokenOf(At(st, r)) == Some(st.slot.value.token)
  }

  lemma StepKeepsHeld(c: Config, st: State, e: Event)
    requires Inv(c, st) && LeaseIsHeld(st) && Can(c, st, e) && Orderly(e)
    ensures LeaseIsHeld(Apply(c, st, e))
  {
    var t := Apply(c, st, e);
    if e.Win? {
      assert TokenOf(At(t, e.rid)) == Some(t.slot.value.token);
    } else if !Free(t.slot, t.now) {
      var r :| TokenOf(At(st, r)) == Some(st.slot.value.token);
      assert TokenOf(At(t, r)) == Some(t.slot.value.token);
    }
  }

  lemma {:induction false} RunKeepsHeld(c: Config, healthy: bool, st: State, es: seq<Event>, t: State)
    requires Inv(c, st) && LeaseIsHeld(st) && IsRun(c, healthy, st, es, t) && forall e :: e in es ==> Orderly(e)
    ensures LeaseIsHeld(t)
    decreases |es|
  {
    if es != [] {
      StepKeepsInv(c, st, es[0]);
      StepKeepsHeld(c, st, es[0]);
      RunKeepsHeld(c, healthy, Apply(c, st, es[0]), es[1..], t);
    }
  }

  /**
    * No lease outlives its pass: if every resign reaches Redis, no replica dies and no election is
    * applied unheard, a lease that is running is always that of a replica in its pass or about to
    * resign from it; so while nobody is, no election is lost.
    */
  lemma LeasesEndWithPasses(c: Config, healthy: bool, es: seq<Event>, t: State, q: Rid, token: Token)
    requires IsRun(c, healthy, Init(), es, t) && forall e :: e in es ==> Orderly(e)
    ensures !Free(t.slot, t.now) ==> exists r :: !At(t, r).Sleeping? && At(t, r).token == Some(t.slot.value.token)
    ensures (forall r :: At(t, r).Sleeping?) ==> !Can(c, t, Refused(q, token))
  {
    RunKeepsHeld(c, healthy, Init(), es, t);
    if !Free(t.slot, t.now) {
      var r :| TokenOf(At(t, r)) == Some(t.slot.value.token);
      assert !At(t, r).Sleeping? && At(t, r).token == Some(t.slot.value.token);
    }
  }

  /** A replica comes round to its turn. */
  predicate Turn(e: Event, r: Rid) {
    (e.Skip? || e.Win? || e.Refused? || e.Unasked?) && e.rid == r
  }

  /**
    * A replica sits its turn out only if elections are on, Redis answers it, and the lease of some
    * token is running; in every other case, an unreachable Redis included, it begins a pass.
    */
  lemma SitsOutIff(c: Config, st: State, e: Event, r: Rid)
    requires Can(c, st, e) && Turn(e, r)
    ensures At(Apply(c, st, e), r).Sleeping? <==> c.elected && !e.Unasked? && !Free(st.slot, st.now)
    ensures At(Apply(c, st, e), r).Sleeping? || At(Apply(c, st, e), r).Reaping?
  {
  }
}
