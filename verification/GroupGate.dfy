/**
  * The cached group check: overlapping checks, each of which reads the cache and, on a
  * miss, asks Graph and stores what it answered. The cache entry never slides, but its
  * clock starts when the answer is stored, not when Graph looked.
  */
module GroupGate {
  import opened Options

  type Oid = string
  type Gid = string
  type Time = real

  /** `roundTrip` bounds the time from a cache miss to the storing of the answer. */
  datatype Config = Config(ttl: Time, roundTrip: Time)

  datatype Entry = Entry(groups: set<Gid>, expires: Time)

  datatype Check =
    | Asking(oid: Option<Oid>, group: Gid, since: Time)
    | Answered(oid: Option<Oid>, group: Gid, since: Time, groups: set<Gid>)
    | Closed

  /** History: what Graph saw when it looked, and what the checks decided. */
  datatype Answer = Answer(user: Option<Oid>, at: Time, groups: set<Gid>)
  datatype Decision = Decision(user: Option<Oid>, group: Gid, at: Time, allowed: bool)

  datatype State = State(
    now: Time,
    members: map<Option<Oid>, set<Gid>>,
    cache: map<Oid, Entry>,
    checks: map<nat, Check>,
    answers: set<Answer>,
    decisions: set<Decision>)

  function Init(): State {
    State(0.0, map[], map[], map[], {}, {})
  }

  datatype Event =
    | Pass(seconds: Time)
    | Change(user: Option<Oid>, groups: set<Gid>)  // membership changes in the directory
    | Evict(oid: Oid)                              // the cache drops an entry to make room
    | Begin(id: nat, user: Option<Oid>, group: Gid)
    | Look(id: nat)                                // Graph evaluates the request
    | Finish(id: nat)                              // the answer arrives and is stored
    | Refuse(id: nat)                              // the token exchange fails: no groups
    | Abort(id: nat)                               // the request raises: no decision

  function MembersOf(st: State, user: Option<Oid>): set<Gid> {
    if user in st.members then st.members[user] else {}
  }

  predicate Cached(st: State, user: Option<Oid>) {
    user.Some? && user.value in st.cache && st.now < st.cache[user.value].expires
  }

  predicate Can(c: Config, st: State, e: Event) {
    match e
    case Pass(d) => d >= 0.0
    case Begin(id, _, _) => id !in st.checks
    case Look(id) => id in st.checks && st.checks[id].Asking?
    case Finish(id) => id in st.checks && st.checks[id].Answered? && st.now <= st.checks[id].since + c.roundTrip
    case Refuse(id) => id in st.checks && st.checks[id].Asking?
    case Abort(id) => id in st.checks
    case _ => true
  }

  function Decide(st: State, user: Option<Oid>, group: Gid, groups: set<Gid>): set<Decision> {
    st.decisions + {Decision(user, group, st.now, group in groups)}
  }

  function Apply(c: Config, st: State, e: Event): State
    requires Can(c, st, e)
  {
    match e
    case Pass(d) => st.(now := st.now + d)
    case Change(user, groups) => st.(members := st.members[user := groups])
    case Evict(oid) => st.(cache := st.cache - {oid})
    case Begin(id, user, group) =>
      if Cached(st, user)
      then st.(checks := st.checks[id := Closed], decisions := Decide(st, user, group, st.cache[user.value].groups))
      else st.(checks := st.checks[id := Asking(user, group, st.now)])
    case Look(id) =>
      var k := st.checks[id];
      st.(checks := st.checks[id := Answered(k.oid, k.group, k.since, MembersOf(st, k.oid))],
          answers := st.answers + {Answer(k.oid, st.now, MembersOf(st, k.oid))})
    case Finish(id) =>
      var k := st.checks[id];
      st.(checks := st.checks[id := Closed],
          cache := if k.oid.Some? then st.cache[k.oid.value := Entry(k.groups, st.now + c.ttl)] else st.cache,
          decisions := Decide(st, k.oid, k.group, k.groups))
    case Refuse(id) =>
      st.(checks := st.checks[id := Closed], decisions := Decide(st, st.checks[id].oid, st.checks[id].group, {}))
    case Abort(id) => st.(checks := st.checks[id := Closed])
  }

  ghost predicate IsRun(c: Config, st: State, es: seq<Event>, t: State)
    decreases |es|
  {
    if es == [] then t == st else Can(c, st, es[0]) && IsRun(c, Apply(c, st, es[0]), es[1..], t)
  }

  // ---------------------------------------------------------------------- invariants

  /** Graph answered these groups for the user at some instant from `lo` to `hi`. */
  ghost predicate Vouched(st: State, user: Option<Oid>, groups: set<Gid>, lo: Time, hi: Time) {
    exists a :: a in st.answers && a.user == user && a.groups == groups && lo <= a.at <= hi
  }

  /** The decision is what an answer for its user says of its group. */
  predicate Follows(d: Decision, a: Answer, lo: Time) {
    a.user == d.user && (d.allowed <==> d.group in a.groups) && lo < a.at <= d.at
  }

  ghost predicate VouchedFor(st: State, d: Decision, lo: Time) {
    exists a :: a in st.answers && Follows(d, a, lo)
  }

  ghost predicate CacheVouched(c: Config, st: State) {
    forall oid :: oid in st.cache ==>
      Vouched(st, Some(oid), st.cache[oid].groups, st.cache[oid].expires - c.ttl - c.roundTrip, st.now)
  }

  ghost predicate CheckVouched(st: State, k: Check) {
    && (k.Asking? ==> k.since <= st.now)
    && (k.Answered? ==> Vouched(st, k.oid, k.groups, k.since, st.now))
  }

  ghost predicate ChecksVouched(st: State) {
    forall id :: id in st.checks ==> CheckVouched(st, st.checks[id])
  }

  /** Every decision that allows follows an answer; so does every other, if all users are answered for. */
  ghost predicate DecisionsVouched(c: Config, st: State, all: bool) {
    forall d :: d in st.decisions && (d.allowed || all) ==> VouchedFor(st, d, d.at - c.ttl - c.roundTrip)
  }

  ghost predicate Inv(c: Config, st: State, all: bool) {
    CacheVouched(c, st) && ChecksVouched(st) && DecisionsVouched(c, st, all)
  }

  /** Answers are never forgotten and time only moves on. */
  predicate Later(st: State, t: State) {
    st.answers <= t.answers && st.now <= t.now
  }

  lemma VouchedStays(st: State, t: State, user: Option<Oid>, groups: set<Gid>, lo: Time)
    requires Later(st, t) && Vouched(st, user, groups, lo, st.now)
    ensures Vouched(t, user, groups, lo, t.now)
  {
    var a :| a in st.answers && a.user == user && a.groups == groups && lo <= a.at <= st.now;
    assert a in t.answers;
  }

  lemma VouchedDecides(st: State, t: State, user: Option<Oid>, groups: set<Gid>, group: Gid, lo: Time, low: Time)
    requires Later(st, t) && Vouched(st, user, groups, lo, st.now) && low < lo
    ensures VouchedFor(t, Decision(user, group, st.now, group in groups), low)
  {
    var a :| a in st.answers && a.user == user && a.groups == groups && lo <= a.at <= st.now;
    assert a in t.answers && Follows(Decision(user, group, st.now, group in groups), a, low);
  }

  lemma StepKeepsCache(c: Config, st: State, e: Event, all: bool)
    requires c.roundTrip >= 0.0 && Inv(c, st, all) && Can(c, st, e)
    ensures CacheVouched(c, Apply(c, st, e)) && Later(st, Apply(c, st, e))
  {
    var t := Apply(c, st, e);
    forall oid | oid in t.cache
      ensures Vouched(t, Some(oid), t.cache[oid].groups, t.cache[oid].expires - c.ttl - c.roundTrip, t.now)
    {
      if oid in st.cache && t.cache[oid] == st.cache[oid] {
        VouchedStays(st, t, Some(oid), st.cache[oid].groups, st.cache[oid].expires - c.ttl - c.roundTrip);
      } else {
        assert CheckVouched(st, st.checks[e.id]);
        VouchedStays(st, t, Some(oid), t.cache[oid].groups, st.checks[e.id].since);
      }
    }
  }

  lemma StepKeepsChecks(c: Config, st: State, e: Event, all: bool)
    requires Inv(c, st, all) && Can(c, st, e) && Later(st, Apply(c, st, e))
    ensures ChecksVouched(Apply(c, st, e))
  {
    var t := Apply(c, st, e);
    forall id | id in t.checks
      ensures CheckVouched(t, t.checks[id])
    {
      if id in st.checks && t.checks[id] == st.checks[id] {
        assert CheckVouched(st, st.checks[id]);
        if st.checks[id].Answered? {
          VouchedStays(st, t, st.checks[id].oid, st.checks[id].groups, st.checks[id].since);
        }
      } else if e.Look? && e.id == id {
        assert CheckVouched(st, st.checks[id]);
        assert Answer(st.checks[id].oid, st.now, MembersOf(st, st.checks[id].oid)) in t.answers;
      }
    }
  }

  lemma OldDecisionStays(c: Config, st: State, t: State, d: Decision)
    requires Later(st, t) && VouchedFor(st, d, d.at - c.ttl - c.roundTrip)
    ensures VouchedFor(t, d, d.at - c.ttl - c.roundTrip)
  {
    var a :| a in st.answers && Follows(d, a, d.at - c.ttl - c.roundTrip);
    assert a in t.answers;
  }

  lemma StepKeepsDecisions(c: Config, st: State, e: Event, all: bool)
    requires c.ttl > 0.0 && Inv(c, st, all) && Can(c, st, e) && Later(st, Apply(c, st, e)) && (all ==> !e.Refuse?)
    ensures DecisionsVouched(c, Apply(c, st, e), all)
  {
    var t := Apply(c, st, e);
    forall d | d in t.decisions && (d.allowed || all)
      ensures VouchedFor(t, d, d.at - c.ttl - c.roundTrip)
    {
      if d in st.decisions {
        OldDecisionStays(c, st, t, d);
      } else if e.Begin? {
        var entry := st.cache[e.user.value];
        VouchedDecides(st, t, e.user, entry.groups, e.group, entry.expires - c.ttl - c.roundTrip, d.at - c.ttl - c.roundTrip);
      } else {
        var k := st.checks[e.id];
        assert CheckVouched(st, k);
        VouchedDecides(st, t, k.oid, k.groups, k.group, k.since, d.at - c.ttl - c.roundTrip);
      }
    }
  }

  lemma {:induction false} RunKeepsInv(c: Config, st: State, es: seq<Event>, t: State, all: bool)
    requires c.ttl > 0.0 && c.roundTrip >= 0.0 && Inv(c, st, all) && IsRun(c, st, es, t) && (all ==> AllExchanged(es))
    ensures Inv(c, t, all)
    decreases |es|
  {
    if es != [] {
      StepKeepsCache(c, st, es[0], all);
      StepKeepsChecks(c, st, es[0], all);
      StepKeepsDecisions(c, st, es[0], all);
      RunKeepsInv(c, Apply(c, st, es[0]), es[1..], t, all);
    }
  }

  /** No token exchange fails. */
  predicate AllExchanged(es: seq<Event>) {
    forall e :: e in es ==> !e.Refuse?
  }

  /** At some point of the run the clock and the directory read as the answer says. */
  ghost predicate WasSo(c: Config, st: State, es: seq<Event>, a: Answer) {
    exists n: nat, s: State :: n <= |es| && IsRun(c, st, es[..n], s) && s.now == a.at && MembersOf(s, a.user) == a.groups
  }

  /** The answers in the history are what the directory said at their instants. */
  lemma {:induction false} AnswersWereTrue(c: Config, st: State, es: seq<Event>, t: State, a: Answer)
    requires IsRun(c, st, es, t) && a in t.answers && a !in st.answers
    ensures WasSo(c, st, es, a)
    decreases |es|
  {
    var s1 := Apply(c, st, es[0]);
    if a in s1.answers {
      assert es[..0] == [] && IsRun(c, st, es[..0], st);
    } else {
      AnswersWereTrue(c, s1, es[1..], t, a);
      var n: nat, s: State :| n <= |es[1..]| && IsRun(c, s1, es[1..][..n], s) && s.now == a.at && MembersOf(s, a.user) == a.groups;
      assert es[..n + 1][0] == es[0] && es[..n + 1][1..] == es[1..][..n];
      assert IsRun(c, st, es[..n + 1], s);
    }
  }

  /**
    * Bounded staleness: over any history of membership changes, evictions and overlapping
    * checks, a check that allows at some time rests on Graph having answered "member", as
    * the directory then said, less than the cache lifetime plus one round trip before.
    */
  lemma AllowedWasMember(c: Config, es: seq<Event>, t: State, d: Decision)
    requires c.ttl > 0.0 && c.roundTrip >= 0.0 && IsRun(c, Init(), es, t) && d in t.decisions && d.allowed
    ensures exists a :: a in t.answers && a.user == d.user && d.group in a.groups
                        && d.at - c.ttl - c.roundTrip < a.at <= d.at && WasSo(c, Init(), es, a)
  {
    StartsVouched(c, false);
    RunKeepsInv(c, Init(), es, t, false);
    assert VouchedFor(t, d, d.at - c.ttl - c.roundTrip);
    var a :| a in t.answers && Follows(d, a, d.at - c.ttl - c.roundTrip);
    AnswersWereTrue(c, Init(), es, t, a);
  }

  /**
    * The exact form, where no token exchange fails: a check allows if and only if the group is in
    * an answer Graph gave for the user, as the directory then said, less than the cache lifetime
    * plus one round trip before. So a check that refuses a member rests on an answer, no older, that
    * was true when the user was none.
    */
  lemma DecidesByAnAnswer(c: Config, es: seq<Event>, t: State, d: Decision)
    requires c.ttl > 0.0 && c.roundTrip >= 0.0 && IsRun(c, Init(), es, t) && AllExchanged(es) && d in t.decisions
    ensures exists a :: a in t.answers && a.user == d.user && (d.allowed <==> d.group in a.groups)
                        && d.at - c.ttl - c.roundTrip < a.at <= d.at && WasSo(c, Init(), es, a)
  {
    StartsVouched(c, true);
    RunKeepsInv(c, Init(), es, t, true);
    assert VouchedFor(t, d, d.at - c.ttl - c.roundTrip);
    var a :| a in t.answers && Follows(d, a, d.at - c.ttl - c.roundTrip);
    AnswersWereTrue(c, Init(), es, t, a);
  }

  lemma StartsVouched(c: Config, all: bool)
    ensures Inv(c, Init(), all)
  {
  }

  // --------------------------------------------------------------- what one check decides

  /** A check that is over stays over, and one that was answered keeps its answer until then. */
  lemma {:induction false} AnswerStays(c: Config, st: State, es: seq<Event>, t: State, id: nat)
    requires IsRun(c, st, es, t) && id in st.checks && !st.checks[id].Asking?
    ensures id in t.checks && (t.checks[id] == st.checks[id] || t.checks[id].Closed?)
    decreases |es|
  {
    if es != [] {
      AnswerStays(c, Apply(c, st, es[0]), es[1..], t, id);
    }
  }

  /**
    * A check that asked Graph decides, whatever happens meanwhile, by what the directory said of its
    * user when Graph looked, and decides nothing else; and its answer is there for the checks after it.
    */
  lemma AskingCheckDecides(c: Config, st: State, id: nat, es: seq<Event>, t: State)
    requires Can(c, st, Look(id)) && IsRun(c, Apply(c, st, Look(id)), es, t) && Can(c, t, Finish(id))
    ensures var k, u := st.checks[id], Apply(c, t, Finish(id));
            && Decision(k.oid, k.group, t.now, k.group in MembersOf(st, k.oid)) in u.decisions
            && (forall d :: d in u.decisions && d !in t.decisions ==> d.at == t.now && (d.allowed <==> d.group in MembersOf(st, k.oid)))
            && (k.oid.Some? && c.ttl > 0.0 ==> Cached(u, k.oid) && u.cache[k.oid.value].groups == MembersOf(st, k.oid))
  {
    AnswerStays(c, Apply(c, st, Look(id)), es, t, id);
  }

  // ------------------------------------------------------------ the bound the source states

  /** Every allowing decision rests on an answer no older than the cache lifetime alone. */
  ghost predicate WithinLifetime(c: Config, t: State) {
    forall d :: d in t.decisions && d.allowed ==>
      exists a :: a in t.answers && a.user == d.user && d.group in a.groups && d.at - c.ttl <= a.at
  }

  /** Less than the round trip and less than the lifetime. */
  function Margin(c: Config): Time {
    if c.roundTrip < c.ttl then c.roundTrip / 2.0 else c.ttl / 2.0
  }

  /** A revocation right after Graph looked, a slow answer, and a check just before the entry lapses. */
  function SlowAnswer(c: Config): seq<Event> {
    [Change(Some("u"), {"g"})] + ([Begin(0, Some("u"), "g")] + ([Look(0)] + ([Change(Some("u"), {})] + Aftermath(c))))
  }

  lemma Prepend(c: Config, st: State, e: Event, es: seq<Event>, t: State)
    requires Can(c, st, e) && IsRun(c, Apply(c, st, e), es, t)
    ensures IsRun(c, st, [e] + es, t)
  {
    assert ([e] + es)[1..] == es;
  }

  /** Its second half: the answer arrives late, and is relied on until just before the entry lapses. */
  function Aftermath(c: Config): seq<Event> {
    [Pass(c.roundTrip)] + ([Finish(0)] + ([Pass(c.ttl - Margin(c))] + ([Begin(1, Some("u"), "g")] + [])))
  }

  lemma AftermathRuns(c: Config, s4: State) returns (t: State, d: Decision)
    requires c.ttl > 0.0 && c.roundTrip > 0.0 && s4.now == 0.0 && s4.decisions == {} && s4.cache == map[]
    requires s4.checks == map[0 := Answered(Some("u"), "g", 0.0, {"g"})] && forall a :: a in s4.answers ==> a.at == 0.0
    ensures IsRun(c, s4, Aftermath(c), t) && d in t.decisions && d.allowed
    ensures forall a :: a in t.answers ==> a.at < d.at - c.ttl
  {
    var s5 := Apply(c, s4, Pass(c.roundTrip));
    var s6 := Apply(c, s5, Finish(0));
    var s7 := Apply(c, s6, Pass(c.ttl - Margin(c)));
    t := Apply(c, s7, Begin(1, Some("u"), "g"));
    d := Decision(Some("u"), "g", s7.now, true);
    assert Cached(s7, Some("u")) && s7.cache["u"].groups == {"g"};
    assert IsRun(c, t, [], t);
    hide IsRun;
    Prepend(c, s7, Begin(1, Some("u"), "g"), [], t);
    var es := [Begin(1, Some("u"), "g")] + [];
    Prepend(c, s6, Pass(c.ttl - Margin(c)), es, t);
    es := [Pass(c.ttl - Margin(c))] + es;
    Prepend(c, s5, Finish(0), es, t);
    es := [Finish(0)] + es;
    Prepend(c, s4, Pass(c.roundTrip), es, t);
  }

  /** In that run the second check allows on the strength of an answer older than the lifetime. */
  lemma SlowAnswerRuns(c: Config) returns (t: State, d: Decision)
    requires c.ttl > 0.0 && c.roundTrip > 0.0
    ensures IsRun(c, Init(), SlowAnswer(c), t) && d in t.decisions && d.allowed
    ensures forall a :: a in t.answers ==> a.at < d.at - c.ttl
  {
    var s1 := Apply(c, Init(), Change(Some("u"), {"g"}));
    var s2 := Apply(c, s1, Begin(0, Some("u"), "g"));
    var s3 := Apply(c, s2, Look(0));
    var s4 := Apply(c, s3, Change(Some("u"), {}));
    t, d := AftermathRuns(c, s4);
    hide IsRun, Aftermath;
    var es := Aftermath(c);
    Prepend(c, s3, Change(Some("u"), {}), es, t);
    es := [Change(Some("u"), {})] + es;
    Prepend(c, s2, Look(0), es, t);
    es := [Look(0)] + es;
    Prepend(c, s1, Begin(0, Some("u"), "g"), es, t);
    es := [Begin(0, Some("u"), "g")] + es;
    Prepend(c, Init(), Change(Some("u"), {"g"}), es, t);
  }

  ghost predicate Reaches(c: Config, es: seq<Event>, t: State) {
    IsRun(c, Init(), es, t)
  }

  /**
    * The source calls the cache lifetime the longest a revoked user stays allowed. That
    * holds of every run exactly when an answer takes no time to arrive.
    */
  lemma LifetimeAloneBoundsIffInstant(c: Config)
    requires c.ttl > 0.0 && c.roundTrip >= 0.0
    ensures (forall es, t :: Reaches(c, es, t) ==> WithinLifetime(c, t)) <==> c.roundTrip == 0.0
  {
    if c.roundTrip > 0.0 {
      var t, d := SlowAnswerRuns(c);
      assert Reaches(c, SlowAnswer(c), t) && !WithinLifetime(c, t);
    } else {
      forall es, t | Reaches(c, es, t)
        ensures WithinLifetime(c, t)
      {
        forall d | d in t.decisions && d.allowed
          ensures exists a :: a in t.answers && a.user == d.user && d.group in a.groups && d.at - c.ttl <= a.at
        {
          AllowedWasMember(c, es, t, d);
        }
      }
    }
  }
}
