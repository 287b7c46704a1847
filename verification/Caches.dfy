/** The cache backends and typed views as objects over one shared Redis server. */
module Caches {
  import opened Options
  import opened Routing
  import opened Naming
  import opened Keyspace

  class RedisServer {
    var now: Time
    var store: map<string, Cell>

    constructor (now: Time)
      ensures this.now == now && store == map[]
    {
      this.now := now;
      store := map[];
    }
  }

  /** The keys of one prefix, all with one time-to-live. */
  class RedisBackend {
    const server: RedisServer
    const ttl: Option<nat>
    const prefix: string

    constructor (server: RedisServer, ttl: Option<nat>, prefix: string)
      ensures this.server == server && this.ttl == ttl && this.prefix == prefix
    {
      this.server, this.ttl, this.prefix := server, ttl, prefix;
    }

    function FullKey(key: string): string {
      prefix + ":" + key
    }

    method Get(key: string) returns (value: Option<Value>)
      ensures value == Read(server.store, server.now, FullKey(key))
    {
      var k := FullKey(key);
      if k in server.store && Alive(server.store[k], server.now) {
        value := Some(server.store[k].value);
      } else {
        value := None;
      }
    }

    /** Every set restarts the time-to-live. */
    method Set(key: string, value: Value)
      modifies server`store
      ensures server.store == Perform(old(server.store), server.now, Command.Set(FullKey(key), value, ttl)).store
    {
      server.store := server.store[FullKey(key) := Cell(value, Deadline(server.now, ttl))];
    }

    method Delete(key: string)
      modifies server`store
      ensures server.store == Perform(old(server.store), server.now, Command.Delete(FullKey(key))).store
    {
      server.store := server.store - {FullKey(key)};
    }
  }

  /** The routing keys and bootstrap flags. */
  class SessionSandboxCache {
    const backend: RedisBackend

    constructor (backend: RedisBackend)
      ensures this.backend == backend
    {
      this.backend := backend;
    }

    predicate Mounted() {
      backend.prefix == "mcp"
    }

    method Get(key: Key) returns (sandbox: Option<Value>)
      requires Mounted()
      modifies backend.server`store
      ensures sandbox == Read(old(backend.server.store), backend.server.now, Render(Session(key)))
      ensures backend.server.store ==
                if sandbox.None? then old(backend.server.store)
                else old(backend.server.store)[Render(Session(key)) := Cell(sandbox.value, Deadline(backend.server.now, backend.ttl))]
    {
      sandbox := backend.Get("session:" + RouteText(key));
      SessionKey(key);
      if sandbox.Some? {
        backend.Set("session:" + RouteText(key), sandbox.value);
      }
    }

    /** Reads without sliding. */
    method Peek(key: Key) returns (sandbox: Option<Value>)
      requires Mounted()
      ensures sandbox == Read(backend.server.store, backend.server.now, Render(Session(key)))
    {
      SessionKey(key);
      sandbox := backend.Get("session:" + RouteText(key));
    }

    method Set(key: Key, sandbox: string)
      requires Mounted()
      modifies backend.server`store
      ensures backend.server.store ==
                old(backend.server.store)[Render(Session(key)) := Cell(Text(sandbox), Deadline(backend.server.now, backend.ttl))]
    {
      SessionKey(key);
      backend.Set("session:" + RouteText(key), Text(sandbox));
    }

    method Delete(key: Key)
      requires Mounted()
      modifies backend.server`store
      ensures backend.server.store == old(backend.server.store) - {Render(Session(key))}
    {
      SessionKey(key);
      backend.Delete("session:" + RouteText(key));
    }

    method IsBootstrapped(sandbox: string) returns (flag: bool)
      requires Mounted()
      ensures flag <==> Read(backend.server.store, backend.server.now, Render(Bootstrapped(sandbox))) == Some(True)
    {
      assert backend.FullKey("bootstrapped:" + sandbox) == Render(Bootstrapped(sandbox));
      var value := backend.Get("bootstrapped:" + sandbox);
      flag := value == Some(True);
    }

    method MarkBootstrapped(sandbox: string)
      requires Mounted()
      modifies backend.server`store
      ensures backend.server.store ==
                old(backend.server.store)[Render(Bootstrapped(sandbox)) := Cell(True, Deadline(backend.server.now, backend.ttl))]
    {
      assert backend.FullKey("bootstrapped:" + sandbox) == Render(Bootstrapped(sandbox));
      backend.Set("bootstrapped:" + sandbox, True);
    }

    lemma SessionKey(key: Key)
      requires Mounted()
      ensures backend.FullKey("session:" + RouteText(key)) == Render(Session(key))
    {
    }
  }

  /** The current session of each user, sliding on every read. */
  class UserSessionCache {
    const backend: RedisBackend

    constructor (backend: RedisBackend)
      ensures this.backend == backend
    {
      this.backend := backend;
    }

    predicate Mounted() {
      backend.prefix == "mcp"
    }

    method Get(oid: string) returns (session: Option<Value>)
      requires Mounted()
      modifies backend.server`store
      ensures session == Read(old(backend.server.store), backend.server.now, Render(UserSession(oid)))
      ensures backend.server.store ==
                if session.None? then old(backend.server.store)
                else old(backend.server.store)[Render(UserSession(oid)) := Cell(session.value, Deadline(backend.server.now, backend.ttl))]
    {
      assert backend.FullKey("usersession:" + oid) == Render(UserSession(oid));
      session := backend.Get("usersession:" + oid);
      if session.Some? {
        backend.Set("usersession:" + oid, session.value);
      }
    }

    method Set(oid: string, session: string)
      requires Mounted()
      modifies backend.server`store
      ensures backend.server.store ==
                old(backend.server.store)[Render(UserSession(oid)) := Cell(Text(session), Deadline(backend.server.now, backend.ttl))]
    {
      assert backend.FullKey("usersession:" + oid) == Render(UserSession(oid));
      backend.Set("usersession:" + oid, Text(session));
    }
  }
}
