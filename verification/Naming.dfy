/**
  * The names under which the server keeps things: Redis keys of the typed views, of the
  * reverse index, of the locks and of the reaper lease, and the names of local locks.
  */
module Naming {
  import opened Routing

  /** `s` has no colon in it. */
  predicate Plain(s: string) {
    ':' !in s
  }

  function Colons(s: string): nat {
    if s == "" then 0 else (if s[0] == ':' then 1 else 0) + Colons(s[1..])
  }

  function GroupText(g: Group): string {
    match g case Diagnose => "diagnose" case Action => "action"
  }

  /** The routing key as text: the three parts joined by colons. */
  function RouteText(k: Key): string {
    k.oid + ":" + (k.session + ":" + GroupText(k.group))
  }

  datatype Name =
    | Groups(oid: string)
    | Session(key: Key)
    | Bootstrapped(sandbox: string)
    | Profile(oid: string)
    | UserSession(oid: string)
    | Index(sandbox: string)
    | Lock(key: Key)
    | Leader

  function Render(n: Name): string {
    match n
    case Groups(oid) => "mcp:groups:" + oid
    case Session(k) => "mcp:session:" + RouteText(k)
    case Bootstrapped(s) => "mcp:bootstrapped:" + s
    case Profile(oid) => "mcp:profile:" + oid
    case UserSession(oid) => "mcp:usersession:" + oid
    case Index(s) => "mcp:sbxidx:" + s
    case Lock(k) => "lock:" + RouteText(k)
    case Leader => "mcp:reaper:leader"
  }

  /** Only the first part of a routing key has to be free of colons. */
  predicate WellNamed(n: Name) {
    n.Session? || n.Lock? ==> Plain(n.key.oid)
  }

  lemma {:induction false} ColonsAdd(a: string, b: string)
    ensures Colons(a + b) == Colons(a) + Colons(b)
  {
    if a == "" {
      assert a + b == b;
    } else {
      assert (a + b)[1..] == a[1..] + b;
      ColonsAdd(a[1..], b);
    }
  }

  lemma {:induction false} PlainHasNoColons(s: string)
    ensures Plain(s) <==> Colons(s) == 0
  {
    if s != "" {
      PlainHasNoColons(s[1..]);
      assert Plain(s) <==> s[0] != ':' && Plain(s[1..]);
    }
  }

  /** Text before the first colon is determined. */
  lemma SplitAtFirst(a: string, x: string, b: string, y: string)
    requires Plain(a) && Plain(b) && a + ":" + x == b + ":" + y
    ensures a == b && x == y
  {
    var s := a + ":" + x;
    assert forall i :: 0 <= i < |a| ==> s[i] == a[i] && s[i] != ':';
    assert forall i :: 0 <= i < |b| ==> s[i] == b[i] && s[i] != ':';
    assert s[|a|] == ':' && s[|b|] == ':';
    assert a == s[..|a|] && b == s[..|b|];
    assert x == s[|a| + 1..] && y == s[|b| + 1..];
  }

  /** Text after the last colon is determined. */
  lemma SplitAtLast(x: string, a: string, y: string, b: string)
    requires Plain(a) && Plain(b) && x + ":" + a == y + ":" + b
    ensures x == y && a == b
  {
    var s := x + ":" + a;
    assert |s| == |x| + 1 + |a| == |y| + 1 + |b|;
    assert forall i :: |x| < i < |s| ==> s[i] == a[i - |x| - 1] && s[i] != ':';
    assert forall i :: |y| < i < |s| ==> s[i] == b[i - |y| - 1] && s[i] != ':';
    assert s[|x|] == ':' && s[|y|] == ':';
    assert x == s[..|x|] && y == s[..|y|];
    assert a == s[|x| + 1..] && b == s[|y| + 1..];
  }

  /**
    * Two routing keys are the same text exactly when their groups are the same and their
    * oid and session parts read the same when joined.
    */
  lemma RouteTextSame(a: Key, b: Key)
    ensures RouteText(a) == RouteText(b) <==> a.group == b.group && a.oid + ":" + a.session == b.oid + ":" + b.session
  {
    assert RouteText(a) == (a.oid + ":" + a.session) + ":" + GroupText(a.group);
    assert RouteText(b) == (b.oid + ":" + b.session) + ":" + GroupText(b.group);
    if RouteText(a) == RouteText(b) {
      SplitAtLast(a.oid + ":" + a.session, GroupText(a.group), b.oid + ":" + b.session, GroupText(b.group));
      assert |GroupText(Diagnose)| != |GroupText(Action)|;
    }
  }

  /** With colon-free oids a routing key determines its three parts; the session may contain colons. */
  lemma RouteTextInjective(a: Key, b: Key)
    requires Plain(a.oid) && Plain(b.oid) && RouteText(a) == RouteText(b)
    ensures a == b
  {
    RouteTextSame(a, b);
    SplitAtFirst(a.oid, a.session, b.oid, b.session);
  }

  /** A colon in an oid would let two users share a routing key. */
  lemma ColonsWouldCollide()
    ensures RouteText(Key("a:b", "c", Diagnose)) == RouteText(Key("a", "b:c", Diagnose))
  {
    RouteTextSame(Key("a:b", "c", Diagnose), Key("a", "b:c", Diagnose));
    assert "a:b" + ":" + "c" == "a" + ":" + "b:c";
  }

  function Tag(n: Name): string {
    match n
    case Groups(_) => "mcp:groups:"
    case Session(_) => "mcp:session:"
    case Bootstrapped(_) => "mcp:bootstrapped:"
    case Profile(_) => "mcp:profile:"
    case UserSession(_) => "mcp:usersession:"
    case Index(_) => "mcp:sbxidx:"
    case Lock(_) => "lock:"
    case Leader => "mcp:reaper:leader"
  }

  lemma TagShows(n: Name, i: nat)
    requires i < |Tag(n)|
    ensures |Tag(n)| <= |Render(n)| && Render(n)[i] == Tag(n)[i]
  {
  }

  /** The first characters tell the views apart. */
  lemma TagsDiffer(n: Name, m: Name)
    requires Render(n) == Render(m)
    ensures Tag(n) == Tag(m)
  {
    TagShows(n, 0);
    TagShows(m, 0);
    if !n.Lock? && !m.Lock? {
      TagShows(n, 4);
      TagShows(m, 4);
      TagShows(n, 5);
      TagShows(m, 5);
    }
  }

  /** Distinct names have distinct texts, across all views and within each. */
  lemma RenderInjective(n: Name, m: Name)
    requires WellNamed(n) && WellNamed(m) && Render(n) == Render(m)
    ensures n == m
  {
    TagsDiffer(n, m);
    var k := |Tag(n)|;
    assert Render(n)[k..] == Render(m)[k..];
    match n
    case Groups(oid) =>
      assert m.Groups? && Render(n)[k..] == oid && Render(m)[k..] == m.oid;
    case Session(route) =>
      assert m.Session? && Render(n)[k..] == RouteText(route) && Render(m)[k..] == RouteText(m.key);
      RouteTextInjective(route, m.key);
    case Bootstrapped(s) =>
      assert m.Bootstrapped? && Render(n)[k..] == s && Render(m)[k..] == m.sandbox;
    case Profile(oid) =>
      assert m.Profile? && Render(n)[k..] == oid && Render(m)[k..] == m.oid;
    case UserSession(oid) =>
      assert m.UserSession? && Render(n)[k..] == oid && Render(m)[k..] == m.oid;
    case Index(s) =>
      assert m.Index? && Render(n)[k..] == s && Render(m)[k..] == m.sandbox;
    case Lock(route) =>
      assert m.Lock? && Render(n)[k..] == RouteText(route) && Render(m)[k..] == RouteText(m.key);
      RouteTextInjective(route, m.key);
    case Leader =>
  }

  // --------------------------------------------------------------- names of local locks

  function VolumeLock(groupName: string): string {
    "volume:" + groupName
  }

  function DiskLock(groupName: string): string {
    "diskimage:" + groupName
  }

  lemma RouteHasTwoColons(k: Key)
    ensures Colons(RouteText(k)) >= 2
  {
    ColonsAdd(k.oid + ":", k.session + ":" + GroupText(k.group));
    ColonsAdd(k.oid, ":");
    ColonsAdd(k.session + ":", GroupText(k.group));
    ColonsAdd(k.session, ":");
    assert RouteText(k) == (k.oid + ":") + ((k.session + ":") + GroupText(k.group));
    assert Colons(":") == 1;
  }

  lemma OneColon(tag: string, groupName: string)
    requires Plain(tag) && Plain(groupName)
    ensures Colons(tag + ":" + groupName) == 1
  {
    PlainHasNoColons(tag);
    PlainHasNoColons(groupName);
    ColonsAdd(tag, ":");
    ColonsAdd(tag + ":", groupName);
    assert Colons(":") == 1;
  }

  lemma GroupLockHasOneColon(groupName: string)
    requires Plain(groupName)
    ensures Colons(VolumeLock(groupName)) == 1 && Colons(DiskLock(groupName)) == 1
  {
    OneColon("volume", groupName);
    OneColon("diskimage", groupName);
    assert VolumeLock(groupName) == "volume" + ":" + groupName;
    assert DiskLock(groupName) == "diskimage" + ":" + groupName;
  }

  /**
    * Whatever the oid and the session, a routing key is never the name of a volume or disk
    * lock of a group with a colon-free name, and those two never meet either.
    */
  lemma LockNamesNeverCollide(k: Key, a: string, b: string)
    requires Plain(a) && Plain(b)
    ensures RouteText(k) != VolumeLock(a) && RouteText(k) != DiskLock(a)
    ensures VolumeLock(a) != DiskLock(b)
  {
    RouteHasTwoColons(k);
    GroupLockHasOneColon(a);
    assert VolumeLock(a)[0] == 'v' && DiskLock(b)[0] == 'd';
  }

  // ------------------------------------------------------------- where they would collide

  predicate EndsIn(s: string, end: string) {
    |end| <= |s| && s[|s| - |end|..] == end
  }

  /** A group name that ends like a routing key of the group. */
  predicate ReadsAs(name: string, g: Group) {
    EndsIn(name, ":" + GroupText(g))
  }

  /** The routing key that reads `tag:name`. */
  function Namesake(tag: string, name: string, g: Group): Key
    requires ReadsAs(name, g)
  {
    Key(tag, name[..|name| - |GroupText(g)| - 1], g)
  }

  lemma NamesakeReads(tag: string, name: string, g: Group)
    requires ReadsAs(name, g)
    ensures RouteText(Namesake(tag, name, g)) == tag + ":" + name
  {
    var n := |name| - |GroupText(g)| - 1;
    assert name == name[..n] + name[n..];
    assert name[n..] == ":" + GroupText(g);
    assert name == name[..n] + ":" + GroupText(g);
    assert RouteText(Namesake(tag, name, g)) == tag + ":" + (name[..n] + ":" + GroupText(g));
  }

  /** The oid takes up the tag at least, so the group is read off the end of the name. */
  lemma NamesakeEnds(tag: string, name: string, k: Key)
    requires Plain(tag) && RouteText(k) == tag + ":" + name
    ensures ReadsAs(name, k.group)
  {
    var s, end := tag + ":" + name, ":" + GroupText(k.group);
    assert s[|k.oid|] == ':';
    assert forall i :: 0 <= i < |tag| ==> s[i] == tag[i] && s[i] != ':';
    assert |k.oid| >= |tag|;
    assert s == (k.oid + ":" + k.session) + end;
    assert s[|s| - |end|..] == end;
    assert name == s[|tag| + 1..];
    assert name[|name| - |end|..] == s[|s| - |end|..];
  }

  lemma TagMeetsIff(tag: string, name: string, g: Group)
    requires Plain(tag)
    ensures (exists k: Key :: k.group == g && RouteText(k) == tag + ":" + name) <==> ReadsAs(name, g)
  {
    if ReadsAs(name, g) {
      NamesakeReads(tag, name, g);
      assert Namesake(tag, name, g).group == g;
    } else {
      forall k: Key | k.group == g
        ensures RouteText(k) != tag + ":" + name
      {
        if RouteText(k) == tag + ":" + name {
          NamesakeEnds(tag, name, k);
        }
      }
    }
  }

  /**
    * Exactly where local locks collide: some routing key of the group `g` is the name of the volume lock,
    * and some that of the disk lock, of the sandbox group called `name` just if that name ends in a colon and `g`.
    */
  lemma CollidesIff(name: string, g: Group)
    ensures (exists k: Key :: k.group == g && RouteText(k) == VolumeLock(name)) <==> ReadsAs(name, g)
    ensures (exists k: Key :: k.group == g && RouteText(k) == DiskLock(name)) <==> ReadsAs(name, g)
  {
    assert VolumeLock(name) == "volume" + ":" + name;
    assert DiskLock(name) == "diskimage" + ":" + name;
    TagMeetsIff("volume", name, g);
    TagMeetsIff("diskimage", name, g);
  }
}
