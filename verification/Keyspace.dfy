/**
  * One Redis shared by all typed views, locks and the lease. `Perform` is what Redis does
  * for one command; it is used with text keys for the real store and with structured
  * names for the map each view believes it has to itself.
  */
module Keyspace {
  import opened Options
  import opened Naming

  /** Seconds; time-to-live values are whole seconds. */
  type Time = real

  /** JSON values, as far as the views look into them. */
  datatype Value = Text(text: string) | True | Members(groups: set<string>) | Record(fields: map<string, string>)

  datatype Cell = Cell(value: Value, expires: Option<Time>)

  datatype Command<K> =
    | Get(key: K)
    | Set(key: K, value: Value, ttl: Option<nat>)
    | Delete(key: K)
    | SetIfAbsent(key: K, value: Value, lease: nat)
    | DeleteIfEqual(key: K, value: Value)

  datatype Outcome<K> = Outcome(store: map<K, Cell>, answer: Option<Value>)

  predicate Alive(cell: Cell, now: Time) {
    cell.expires.None? || now < cell.expires.value
  }

  function Read<K(==)>(store: map<K, Cell>, now: Time, key: K): Option<Value> {
    if key in store && Alive(store[key], now) then Some(store[key].value) else None
  }

  function Deadline(now: Time, ttl: Option<nat>): Option<Time> {
    if ttl.None? then None else Some(now + ttl.value as real)
  }

  function Perform<K(==)>(store: map<K, Cell>, now: Time, cmd: Command<K>): Outcome<K> {
    match cmd
    case Get(k) => Outcome(store, Read(store, now, k))
    case Set(k, v, ttl) => Outcome(store[k := Cell(v, Deadline(now, ttl))], Some(True))
    case Delete(k) => Outcome(store - {k}, None)
    case SetIfAbsent(k, v, ttl) =>
      if Read(store, now, k).Some? then Outcome(store, None) else Outcome(store[k := Cell(v, Some(now + ttl as real))], Some(True))
    case DeleteIfEqual(k, v) =>
      if Read(store, now, k) == Some(v) then Outcome(store - {k}, Some(True)) else Outcome(store, None)
  }

  // ----------------------------------------------------------------- independent views

  datatype View = GroupsView | SessionView | BootstrappedView | ProfileView | UserSessionView | IndexView | LockView | LeaderView

  function ViewOf(n: Name): View {
    match n
    case Groups(_) => GroupsView
    case Session(_) => SessionView
    case Bootstrapped(_) => BootstrappedView
    case Profile(_) => ProfileView
    case UserSession(_) => UserSessionView
    case Index(_) => IndexView
    case Lock(_) => LockView
    case Leader => LeaderView
  }

  function AsText(cmd: Command<Name>): Command<string> {
    match cmd
    case Get(k) => Get(Render(k))
    case Set(k, v, ttl) => Set(Render(k), v, ttl)
    case Delete(k) => Delete(Render(k))
    case SetIfAbsent(k, v, ttl) => SetIfAbsent(Render(k), v, ttl)
    case DeleteIfEqual(k, v) => DeleteIfEqual(Render(k), v)
  }

  /** A command at a time. */
  datatype Timed = Timed(at: Time, cmd: Command<Name>)

  /** The answers the commands of one view get from the shared store. */
  function SharedAnswers(store: map<string, Cell>, cmds: seq<Timed>, v: View): (answers: seq<Option<Value>>)
    decreases |cmds|
  {
    if cmds == [] then []
    else
      var r := Perform(store, cmds[0].at, AsText(cmds[0].cmd));
      (if ViewOf(cmds[0].cmd.key) == v then [r.answer] else []) + SharedAnswers(r.store, cmds[1..], v)
  }

  /** The answers the same commands would get from a map of the view's own. */
  function OwnAnswers(own: map<Name, Cell>, cmds: seq<Timed>, v: View): (answers: seq<Option<Value>>)
    decreases |cmds|
  {
    if cmds == [] then []
    else if ViewOf(cmds[0].cmd.key) != v then OwnAnswers(own, cmds[1..], v)
    else
      var r := Perform(own, cmds[0].at, cmds[0].cmd);
      [r.answer] + OwnAnswers(r.store, cmds[1..], v)
  }

  /** The shared store holds exactly the view's own map under the view's names. */
  ghost predicate Holds(store: map<string, Cell>, own: map<Name, Cell>, v: View) {
    forall n :: WellNamed(n) && ViewOf(n) == v ==>
      (Render(n) in store <==> n in own) && (n in own && Render(n) in store ==> store[Render(n)] == own[n])
  }

  lemma OwnCommandKeeps(store: map<string, Cell>, own: map<Name, Cell>, v: View, t: Timed)
    requires Holds(store, own, v) && WellNamed(t.cmd.key) && ViewOf(t.cmd.key) == v
    ensures var r, o := Perform(store, t.at, AsText(t.cmd)), Perform(own, t.at, t.cmd);
            r.answer == o.answer && Holds(r.store, o.store, v)
  {
    forall n | WellNamed(n) && ViewOf(n) == v && Render(n) == Render(t.cmd.key)
      ensures n == t.cmd.key
    {
      RenderInjective(n, t.cmd.key);
    }
  }

  lemma OtherCommandKeeps(store: map<string, Cell>, own: map<Name, Cell>, v: View, t: Timed)
    requires Holds(store, own, v) && WellNamed(t.cmd.key) && ViewOf(t.cmd.key) != v
    ensures Holds(Perform(store, t.at, AsText(t.cmd)).store, own, v)
  {
    forall n | WellNamed(n) && ViewOf(n) == v
      ensures Render(n) != Render(t.cmd.key)
    {
      if Render(n) == Render(t.cmd.key) {
        RenderInjective(n, t.cmd.key);
      }
    }
  }

  /**
    * One keyspace refines independent maps: whatever commands the other views issue in
    * between, at whatever times, a view is answered as if it had a map of its own.
    */
  lemma {:induction false} ViewsAreIndependent(store: map<string, Cell>, own: map<Name, Cell>, cmds: seq<Timed>, v: View)
    requires Holds(store, own, v) && forall i :: 0 <= i < |cmds| ==> WellNamed(cmds[i].cmd.key)
    ensures SharedAnswers(store, cmds, v) == OwnAnswers(own, cmds, v)
    decreases |cmds|
  {
    if cmds != [] {
      var t := cmds[0];
      var r := Perform(store, t.at, AsText(t.cmd));
      if ViewOf(t.cmd.key) == v {
        OwnCommandKeeps(store, own, v, t);
        ViewsAreIndependent(r.store, Perform(own, t.at, t.cmd).store, cmds[1..], v);
      } else {
        OtherCommandKeeps(store, own, v, t);
        ViewsAreIndependent(r.store, own, cmds[1..], v);
      }
    }
  }

  /** In particular a read is not disturbed by any commands on other names. */
  lemma {:induction false} ReadUndisturbed(store: map<string, Cell>, cmds: seq<Timed>, n: Name, now: Time)
    requires WellNamed(n) && forall i :: 0 <= i < |cmds| ==> WellNamed(cmds[i].cmd.key) && cmds[i].cmd.key != n
    ensures Read(Final(store, cmds), now, Render(n)) == Read(store, now, Render(n))
    decreases |cmds|
  {
    if cmds != [] {
      if Render(cmds[0].cmd.key) == Render(n) {
        RenderInjective(cmds[0].cmd.key, n);
      }
      ReadUndisturbed(Perform(store, cmds[0].at, AsText(cmds[0].cmd)).store, cmds[1..], n, now);
    }
  }

  function Final(store: map<string, Cell>, cmds: seq<Timed>): map<string, Cell>
    decreases |cmds|
  {
    if cmds == [] then store else Final(Perform(store, cmds[0].at, AsText(cmds[0].cmd)).store, cmds[1..])
  }

  // ------------------------------------------------------------------ what a reader sees

  /** What a `GET` answers at a time, after a command was done. */
  function Seen<K(==)>(store: map<K, Cell>, at: Time, cmd: Command<K>, later: Time, key: K): Option<Value> {
    Read(Perform(store, at, cmd).store, later, key)
  }

  /** A value that is stored is read until its lifetime is over, and one that is deleted is not. */
  lemma WritesAreRead<K>(store: map<K, Cell>, at: Time, key: K, v: Value, ttl: Option<nat>, later: Time)
    ensures Seen(store, at, Set(key, v, ttl), later, key) == if ttl.None? || later < at + ttl.value as real then Some(v) else None
    ensures Seen(store, at, Delete(key), later, key) == None
    ensures Perform(store, at, Get(key)) == Outcome(store, Read(store, at, key))
  {
  }

  /**
    * The two commands of a lock: the first succeeds exactly when nothing is read under the key, and its
    * value is then read until the lease is over; the second succeeds exactly when its value is
    * read, and nothing is read from then on. Neither does anything else.
    */
  lemma LockCommands<K>(store: map<K, Cell>, at: Time, key: K, v: Value, lease: nat, later: Time)
    requires at <= later
    ensures var take := Perform(store, at, SetIfAbsent(key, v, lease));
            && (take.answer.Some? <==> Read(store, at, key).None?)
            && (take.answer.None? ==> take.store == store)
            && (take.answer.Some? ==> Read(take.store, later, key) == if later < at + lease as real then Some(v) else None)
    ensures var free := Perform(store, at, DeleteIfEqual(key, v));
            && (free.answer.Some? <==> Read(store, at, key) == Some(v))
            && (free.answer.None? ==> free.store == store)
            && (free.answer.Some? ==> Read(free.store, later, key) == None)
  {
  }
}
