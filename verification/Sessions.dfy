/**
  * Session derivation: a sliding window per user, and the ids it mints. The reference is
  * the plain idea of a session: cut the user's calls wherever two of them are a window
  * apart or more.
  */
module Sessions {
  import opened Options
  import opened Naming
  import opened Keyspace

  // ---------------------------------------------------------------------- session ids

  function Digit(d: nat): char
    requires d < 10
  {
    "0123456789"[d]
  }

  function Decimal(n: nat): (s: string)
    ensures s != "" && '_' !in s
  {
    if n < 10 then [Digit(n)] else Decimal(n / 10) + [Digit(n % 10)]
  }

  lemma {:induction false} DecimalInjective(m: nat, n: nat)
    requires Decimal(m) == Decimal(n)
    ensures m == n
    decreases m + n
  {
    var s := Decimal(m);
    assert s[|s| - 1] == Digit(m % 10) == Digit(n % 10);
    assert m % 10 == n % 10;
    if m >= 10 && n >= 10 {
      assert s[..|s| - 1] == Decimal(m / 10) && s[..|s| - 1] == Decimal(n / 10);
      DecimalInjective(m / 10, n / 10);
    }
  }

  function Without(s: string, c: char): string {
    if s == "" then "" else (if s[0] == c then "" else [s[0]]) + Without(s[1..], c)
  }

  function Take(s: string, n: nat): string {
    if |s| <= n then s else s[..n]
  }

  /** An id that is absent or empty does not count. */
  predicate Present(id: Option<string>) {
    id.Some? && id.value != ""
  }

  function BaseOf(oid: string, transport: Option<string>): string {
    if Present(transport) then transport.value else Take(Without(oid, '-'), 12)
  }

  function Mint(oid: string, transport: Option<string>, at: Time): (id: string)
    requires at >= 0.0
    ensures id != ""
  {
    BaseOf(oid, transport) + "_" + Decimal(at.Floor)
  }

  /** Ids minted in different seconds differ, whatever their bases are. */
  lemma MintsDiffer(oid: string, a: Option<string>, s: Time, b: Option<string>, t: Time)
    requires s >= 0.0 && t >= s + 1.0
    ensures Mint(oid, a, s) != Mint(oid, b, t)
  {
    var x, y := BaseOf(oid, a), BaseOf(oid, b);
    var d, e := Decimal(s.Floor), Decimal(t.Floor);
    if x + "_" + d == y + "_" + e {
      SuffixAfterUnderscore(x, d, y, e);
      DecimalInjective(s.Floor, t.Floor);
    }
  }

  lemma SuffixAfterUnderscore(x: string, d: string, y: string, e: string)
    requires '_' !in d && '_' !in e && x + "_" + d == y + "_" + e
    ensures d == e
  {
    var s := x + "_" + d;
    assert forall i :: |x| < i < |s| ==> s[i] == d[i - |x| - 1] && s[i] != '_';
    assert forall i :: |y| < i < |s| ==> s[i] == e[i - |y| - 1] && s[i] != '_';
    assert s[|x|] == '_' && s[|y|] == '_';
    assert d == s[|x| + 1..] && e == s[|y| + 1..];
  }

  /** An id tells the transport id it was minted for, if there was one, and the second. */
  lemma MintTells(oid: string, a: Option<string>, s: Time, other: string, b: Option<string>, t: Time)
    requires s >= 0.0 && t >= 0.0 && a.Some? && a.value != "" && b.Some? && b.value != ""
    ensures Mint(oid, a, s) == Mint(other, b, t) <==> a == b && s.Floor == t.Floor
    ensures |Mint(oid, a, s)| > |a.value| && Mint(oid, a, s)[..|a.value|] == a.value
  {
    var d, e := Decimal(s.Floor), Decimal(t.Floor);
    if Mint(oid, a, s) == Mint(other, b, t) {
      SuffixAfterUnderscore(a.value, d, b.value, e);
      DecimalInjective(s.Floor, t.Floor);
      assert a.value == Mint(oid, a, s)[..|a.value|] && b.value == Mint(other, b, t)[..|b.value|];
    }
  }

  lemma {:induction false} WithoutJoins(x: string, y: string, c: char)
    ensures Without(x + y, c) == Without(x, c) + Without(y, c)
  {
    if x == "" {
      assert x + y == y;
    } else {
      assert (x + y)[1..] == x[1..] + y;
      WithoutJoins(x[1..], y, c);
    }
  }

  lemma {:induction false} WithoutKeeps(x: string, c: char)
    requires c !in x
    ensures Without(x, c) == x
  {
    if x != "" {
      WithoutKeeps(x[1..], c);
      assert x == [x[0]] + x[1..];
    }
  }

  lemma DashVanishes(x: string, y: string)
    ensures Without(x + "-" + y, '-') == Without(x + y, '-')
  {
    assert Without("-", '-') == "";
    hide Without;
    WithoutJoins(x + "-", y, '-');
    WithoutJoins(x, "-", '-');
    WithoutJoins(x, y, '-');
    assert Without(x, '-') + "" == Without(x, '-');
  }

  /** Without a transport id, a dash in the oid does not matter, and an oid without dashes gives its first twelve characters. */
  lemma BaseSkipsDashes(x: string, y: string)
    ensures BaseOf(x + "-" + y, None) == BaseOf(x + y, None)
    ensures '-' !in x ==> BaseOf(x, None) == if |x| > 12 then x[..12] else x
  {
    DashVanishes(x, y);
    if '-' !in x {
      WithoutKeeps(x, '-');
    }
  }

  // ------------------------------------------------------------------- the sliding window

  /** What the cache holds for one user. */
  datatype Held = Held(id: string, expires: Time)

  datatype Resolved = Resolved(held: Held, id: string)

  /** One `resolve` of a user with an oid; `minted` is the id it mints if it has to. */
  function Resolve(ttl: nat, held: Option<Held>, at: Time, minted: string): (r: Resolved) {
    if held.Some? && at < held.value.expires && held.value.id != "" then
      Resolved(Held(held.value.id, at + ttl as real), held.value.id)
    else
      Resolved(Held(minted, at + ttl as real), minted)
  }

  datatype Visit = Visit(at: Time, minted: string)

  /** The session ids a sequence of calls gets. */
  function Ids(ttl: nat, held: Option<Held>, visits: seq<Visit>): (ids: seq<string>)
    ensures |ids| == |visits|
    decreases |visits|
  {
    if visits == [] then []
    else
      var r := Resolve(ttl, held, visits[0].at, visits[0].minted);
      [r.id] + Ids(ttl, Some(r.held), visits[1..])
  }

  // --------------------------------------------------------------- reference: gap splitting

  predicate InOrder(visits: seq<Visit>) {
    && (forall i :: 0 <= i < |visits| ==> visits[i].minted != "")
    && (forall i, j :: 0 <= i < j < |visits| ==> visits[i].at <= visits[j].at)
  }

  /** The call `i` opens a new session: it is the first, or a whole window after the one before. */
  predicate Opens(ttl: nat, visits: seq<Visit>, i: nat)
    requires i < |visits|
  {
    i == 0 || visits[i].at - visits[i - 1].at >= ttl as real
  }

  /** The call that opened the session `i` belongs to. */
  function Opener(ttl: nat, visits: seq<Visit>, i: nat): (o: nat)
    requires i < |visits|
    ensures o <= i && Opens(ttl, visits, o) && forall j :: o < j <= i ==> !Opens(ttl, visits, j)
  {
    if Opens(ttl, visits, i) then i else Opener(ttl, visits, i - 1)
  }

  // ------------------------------------------------------------------------- refinement

  /** Call `i` gets the id minted by the call that opened its session. */
  lemma {:induction false} IdIsOpeners(ttl: nat, visits: seq<Visit>, i: nat)
    requires i < |visits| && InOrder(visits)
    ensures HeldAfter(ttl, visits, i + 1) == Some(Held(visits[Opener(ttl, visits, i)].minted, visits[i].at + ttl as real))
  {
    if i > 0 {
      IdIsOpeners(ttl, visits, i - 1);
    }
  }

  /** The cached session after the first `n` calls. */
  function HeldAfter(ttl: nat, visits: seq<Visit>, n: nat): (h: Option<Held>)
    requires n <= |visits|
  {
    if n == 0 then None
    else Some(Resolve(ttl, HeldAfter(ttl, visits, n - 1), visits[n - 1].at, visits[n - 1].minted).held)
  }

  lemma {:induction false} IdsFrom(ttl: nat, visits: seq<Visit>, n: nat, i: nat)
    requires n <= i < |visits|
    ensures Some(Ids(ttl, HeldAfter(ttl, visits, n), visits[n..])[i - n]) == HeldId(HeldAfter(ttl, visits, i + 1))
    decreases i - n
  {
    assert visits[n..][1..] == visits[n + 1..];
    assert visits[n..][0] == visits[n];
    if n < i {
      IdsFrom(ttl, visits, n + 1, i);
    }
  }

  function HeldId(h: Option<Held>): Option<string> {
    if h.None? then None else Some(h.value.id)
  }

  /** Every call gets the id minted by the last call that came a whole window after its predecessor. */
  lemma IdsFollowGaps(ttl: nat, visits: seq<Visit>, i: nat)
    requires i < |visits| && InOrder(visits)
    ensures Ids(ttl, None, visits)[i] == visits[Opener(ttl, visits, i)].minted
  {
    IdsFrom(ttl, visits, 0, i);
    assert visits[0..] == visits;
    IdIsOpeners(ttl, visits, i);
  }

  datatype Call = Call(at: Time, transport: Option<string>)

  /** Calls at clock times that do not go backwards. */
  predicate Clocked(calls: seq<Call>) {
    && (forall i :: 0 <= i < |calls| ==> calls[i].at >= 0.0)
    && (forall i, j :: 0 <= i < j < |calls| ==> calls[i].at <= calls[j].at)
  }

  /** The calls of one user, each with the id it would mint. */
  function Visits(oid: string, calls: seq<Call>): (visits: seq<Visit>)
    requires Clocked(calls)
    ensures |visits| == |calls|
    ensures forall i :: 0 <= i < |calls| ==> visits[i] == Visit(calls[i].at, Mint(oid, calls[i].transport, calls[i].at))
  {
    seq(|calls|, i requires 0 <= i < |calls| => Visit(calls[i].at, Mint(oid, calls[i].transport, calls[i].at)))
  }

  /** Two sessions opened by different calls have different ids, even when the transport id changed. */
  lemma OpenersDiffer(ttl: nat, oid: string, calls: seq<Call>, a: nat, b: nat)
    requires ttl >= 1 && a < b < |calls| && Clocked(calls)
    requires Opens(ttl, Visits(oid, calls), b)
    ensures Visits(oid, calls)[a].minted != Visits(oid, calls)[b].minted
  {
    assert calls[b].at >= calls[b - 1].at + ttl as real && calls[b - 1].at >= calls[a].at;
    MintsDiffer(oid, calls[a].transport, calls[a].at, calls[b].transport, calls[b].at);
  }

  lemma SameIdIffSameOpener(ttl: nat, oid: string, calls: seq<Call>, i: nat, j: nat)
    requires ttl >= 1 && i <= j < |calls| && Clocked(calls)
    ensures var visits := Visits(oid, calls);
            Ids(ttl, None, visits)[i] == Ids(ttl, None, visits)[j] <==> Opener(ttl, visits, i) == Opener(ttl, visits, j)
  {
    var visits := Visits(oid, calls);
    IdsFollowGaps(ttl, visits, i);
    IdsFollowGaps(ttl, visits, j);
    SameOpenerIffNoGap(ttl, visits, i, j);
    if Opener(ttl, visits, i) < Opener(ttl, visits, j) {
      OpenersDiffer(ttl, oid, calls, Opener(ttl, visits, i), Opener(ttl, visits, j));
    }
  }

  /**
    * The sliding window refines gap splitting: two calls of a user get the same session id
    * exactly when no gap between them is a window or longer.
    */
  lemma SameSessionIffNoGap(ttl: nat, oid: string, calls: seq<Call>, i: nat, j: nat)
    requires ttl >= 1 && i <= j < |calls| && Clocked(calls)
    ensures var ids := Ids(ttl, None, Visits(oid, calls));
            ids[i] == ids[j] <==> forall m :: i < m <= j ==> calls[m].at - calls[m - 1].at < ttl as real
  {
    SameIdIffSameOpener(ttl, oid, calls, i, j);
    SameOpenerIffNoGap(ttl, Visits(oid, calls), i, j);
    GapsOfCalls(ttl, oid, calls, i, j);
  }

  lemma GapsOfCalls(ttl: nat, oid: string, calls: seq<Call>, i: nat, j: nat)
    requires i <= j < |calls| && Clocked(calls)
    ensures (forall m :: i < m <= j ==> !Opens(ttl, Visits(oid, calls), m))
       <==> (forall m :: i < m <= j ==> calls[m].at - calls[m - 1].at < ttl as real)
  {
    forall m | i < m <= j
      ensures Opens(ttl, Visits(oid, calls), m) <==> calls[m].at - calls[m - 1].at >= ttl as real
    {
    }
  }

  lemma SameOpenerIffNoGap(ttl: nat, visits: seq<Visit>, i: nat, j: nat)
    requires i <= j < |visits|
    ensures Opener(ttl, visits, i) <= Opener(ttl, visits, j)
    ensures Opener(ttl, visits, i) == Opener(ttl, visits, j) <==> forall m :: i < m <= j ==> !Opens(ttl, visits, m)
  {
    var a, b := Opener(ttl, visits, i), Opener(ttl, visits, j);
    assert Opens(ttl, visits, b);
    if b <= i {
      assert a == b;
    }
  }
}
