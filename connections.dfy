/** The connection layer (`yoton/connections.py`): backend databases, connections to them,
    and `SimpleConnectionFactory`, which picks the database a wrapper is bound to, falls back
    to the `default` entry, and keeps one connection per alias. */
module Connections {
  import opened Values

  /** The keyword arguments a connection is built with (`redis.Redis(**config)`). An empty
      config is falsy in Python. */
  type Config = map<string, string>

  /** What a backend database keeps under a key: the serialized payload and the expiry, in
      seconds, it was stored with. */
  datatype Entry = Entry(payload: Bytes, ttl: int)

  /** A backend database. */
  class Server {
    var entries: map<string, Entry>

    constructor ()
      ensures entries == map[]
    {
      entries := map[];
    }
  }

  /** A client connection: the config it was built from and the database that config
      reaches. */
  class Connection {
    const config: Config
    const server: Server

    constructor (config: Config, server: Server)
      ensures this.config == config && this.server == server
    {
      this.config := config;
      this.server := server;
    }

    /** `GET key`: the stored payload, or None when the key is absent. */
    method Get(key: string) returns (data: Option<Bytes>)
      ensures data.Some? <==> key in server.entries
      ensures data.Some? ==> data.value == server.entries[key].payload
    {
      if key in server.entries {
        data := Some(server.entries[key].payload);
      } else {
        data := None;
      }
    }

    /** `SETEX key time value`: store the payload under the key, replacing any earlier entry.
        Redis refuses an expiry that is not positive, and then stores nothing. */
    method SetEx(key: string, time: int, value: Bytes) returns (stored: bool)
      modifies server
      ensures stored <==> time > 0
      ensures stored ==> server.entries == old(server.entries)[key := Entry(value, time)]
      ensures !stored ==> server.entries == old(server.entries)
    {
      stored := time > 0;
      if stored {
        server.entries := server.entries[key := Entry(value, time)];
      }
    }

    /** `DEL key`. */
    method Delete(key: string)
      modifies server
      ensures server.entries == old(server.entries) - {key}
    {
      server.entries := server.entries - {key};
    }
  }

  /** `redis_config.get(alias)`: the config registered under the alias, or None when the
      alias is absent (or is None itself) or registered with None. */
  function Lookup(configs: map<string, Option<Config>>, alias: Option<string>): (c: Option<Config>)
    ensures c.Some? ==> alias.Some? && alias.value in configs && configs[alias.value] == c
    ensures alias.Some? && alias.value in configs ==> c == configs[alias.value]
  {
    if alias.Some? && alias.value in configs then configs[alias.value] else None
  }

  /** A config a connection can be built from: present and, being a dict, non-empty. */
  predicate Usable(c: Option<Config>)
  {
    c.Some? && c.value != map[]
  }

  /** `database in self.redis_config`. */
  predicate Registered(configs: map<string, Option<Config>>, database: Option<string>)
  {
    database.Some? && database.value in configs
  }

  /** What `get_connection` does for a database: hand out the connection pooled under an
      alias, or build one from a config and pool it under an alias. */
  datatype Plan = Reuse(alias: string) | Build(alias: string, config: Config)

  /** The decision `get_connection` takes, in the order its code takes it: refuse a database
      that is not registered when no usable default exists; reuse the database's pooled
      connection; build one from the database's own config when that config is usable; reuse
      the pooled default connection; build the default connection, which raises a TypeError
      (`**None`) when the default entry is missing or None. */
  function Route(configs: map<string, Option<Config>>, pooled: set<string>, database: Option<string>): (r: Result<Plan>)
    ensures r.Success? && r.value.Reuse? ==> r.value.alias in pooled
    ensures r.Success? && r.value.Build? ==>
      r.value.alias !in pooled && Lookup(configs, Some(r.value.alias)) == Some(r.value.config)
    ensures r == Failure(NoDatabase(database)) <==>
      !Registered(configs, database) && !Usable(Lookup(configs, Some("default")))
    ensures r == Failure(NoDefaultConfig) <==>
      && (Registered(configs, database) || Usable(Lookup(configs, Some("default"))))
      && (database.Some? ==> database.value !in pooled)
      && !Usable(Lookup(configs, database))
      && "default" !in pooled
      && Lookup(configs, Some("default")).None?
    ensures r.Failure? ==> r.error == NoDatabase(database) || r.error == NoDefaultConfig
  {
    var fallback := Lookup(configs, Some("default"));
    if !Registered(configs, database) && !Usable(fallback) then Failure(NoDatabase(database))
    else if database.Some? && database.value in pooled then Success(Reuse(database.value))
    else if Usable(Lookup(configs, database)) then Success(Build(database.value, Lookup(configs, database).value))
    else if "default" in pooled then Success(Reuse("default"))
    else if fallback.None? then Failure(NoDefaultConfig)
    else Success(Build("default", fallback.value))
  }

  /** The alias whose config a database is served from: its own when usable, else `default`. */
  function Destination(configs: map<string, Option<Config>>, database: Option<string>): string
  {
    if Usable(Lookup(configs, database)) then database.value else "default"
  }

  /** Every pooled alias was built from a usable config of its own, or is `default`. */
  predicate PoolShape(configs: map<string, Option<Config>>, pooled: set<string>)
  {
    forall a :: a in pooled ==> a == "default" || Usable(Lookup(configs, Some(a)))
  }

  /** The alias a database is served under does not depend on which connections happen to be
      pooled already. */
  lemma RouteDestination(configs: map<string, Option<Config>>, pooled: set<string>, database: Option<string>)
    requires PoolShape(configs, pooled)
    ensures Route(configs, pooled, database).Success? ==>
      Route(configs, pooled, database).value.alias == Destination(configs, database)
  {
  }

  /** Once a plan has been carried out (its alias is pooled), the same database is routed to
      the same alias again, now by reuse: the factory hands out one connection per database. */
  lemma RouteSettles(configs: map<string, Option<Config>>, pooled: set<string>, database: Option<string>)
    requires Route(configs, pooled, database).Success?
    ensures Route(configs, pooled + {Route(configs, pooled, database).value.alias}, database)
         == Success(Reuse(Route(configs, pooled, database).value.alias))
  {
  }

  /** Carrying out a plan keeps the pool's shape. */
  lemma RouteKeepsShape(configs: map<string, Option<Config>>, pooled: set<string>, database: Option<string>)
    requires PoolShape(configs, pooled)
    ensures Route(configs, pooled, database).Success? ==>
      PoolShape(configs, pooled + {Route(configs, pooled, database).value.alias})
  {
  }

  /** Every connection pooled in `before` is still pooled in `after`, under the same alias. */
  predicate Keeps(before: map<string, Connection>, after: map<string, Connection>)
  {
    forall a :: a in before ==> a in after && after[a] == before[a]
  }

  /** Pooling a connection under a new alias keeps every pooled connection. */
  lemma KeepsAdding(pool: map<string, Connection>, alias: string, c: Connection)
    requires alias !in pool
    ensures Keeps(pool, pool[alias := c])
  {
  }

  /** `SimpleConnectionFactory`: the registered configs, the `default` entry read once at
      construction, and the pool of connections built so far, by alias. Which database a
      config reaches is the network's business and is given as `network`. */
  class ConnectionFactory {
    const configs: map<string, Option<Config>>
    const defaultConfig: Option<Config>
    const network: Config -> Server
    var connections: map<string, Connection>

    /** Each pooled connection was built from its alias's config (or the default's), to the
        database that config reaches. */
    predicate Valid()
      reads this
    {
      && defaultConfig == Lookup(configs, Some("default"))
      && PoolShape(configs, connections.Keys)
      && forall a :: a in connections ==>
           && Lookup(configs, Some(a)) == Some(connections[a].config)
           && connections[a].server == network(connections[a].config)
    }

    /** The configs name a database for `database`: its own config or the default's. */
    predicate Serves(database: Option<string>)
    {
      Lookup(configs, Some(Destination(configs, database))).Some?
    }

    /** The database a connection for `database` reaches. */
    function ServerOf(database: Option<string>): Server
      requires Serves(database)
    {
      network(Lookup(configs, Some(Destination(configs, database))).value)
    }

    /** The databases a call for `database` may write: the one it reaches, if any. */
    function ServerFor(database: Option<string>): (s: set<Server>)
      ensures Serves(database) ==> s == {ServerOf(database)}
      ensures !Serves(database) ==> s == {}
    {
      if Serves(database) then {ServerOf(database)} else {}
    }

    constructor (redisConfig: map<string, Option<Config>>, network: Config -> Server)
      ensures configs == redisConfig && this.network == network && connections == map[]
      ensures Valid()
    {
      configs := redisConfig;
      defaultConfig := Lookup(redisConfig, Some("default"));
      this.network := network;
      connections := map[];
    }

    /** `get_connection(cache_key, database)`; the key is not consulted. */
    method GetConnection(cacheKey: string, database: Option<string>) returns (r: Result<Connection>)
      requires Valid()
      modifies this
      ensures Valid()
      ensures Route(configs, old(connections).Keys, database).Failure? ==>
        r == Failure(Route(configs, old(connections).Keys, database).error) && connections == old(connections)
      ensures Route(configs, old(connections).Keys, database).Success? &&
              Route(configs, old(connections).Keys, database).value.Reuse? ==>
        r == Success(old(connections)[Route(configs, old(connections).Keys, database).value.alias])
        && connections == old(connections)
      ensures Route(configs, old(connections).Keys, database).Success? &&
              Route(configs, old(connections).Keys, database).value.Build? ==>
        && r.Success? && fresh(r.value)
        && r.value.config == Route(configs, old(connections).Keys, database).value.config
        && connections == old(connections)[Route(configs, old(connections).Keys, database).value.alias := r.value]
      ensures r.Success? <==> Route(configs, old(connections).Keys, database).Success?
      ensures Keeps(old(connections), connections)
      ensures r.Success? ==>
        && Lookup(configs, Some(Destination(configs, database))) == Some(r.value.config)
        && Serves(database) && r.value.server == ServerOf(database)
    {
      ghost var route := Route(configs, connections.Keys, database);
      RouteDestination(configs, connections.Keys, database);
      if !Registered(configs, database) && !Usable(defaultConfig) {
        assert route == Failure(NoDatabase(database));
        return Failure(NoDatabase(database));
      }
      if database.Some? && database.value in connections {
        assert route == Success(Reuse(database.value));
        return Success(connections[database.value]);
      }
      var connectionConfig := Lookup(configs, database);
      if Usable(connectionConfig) {
        assert route == Success(Build(database.value, connectionConfig.value));
        RouteKeepsShape(configs, connections.Keys, database);
        var connection := new Connection(connectionConfig.value, network(connectionConfig.value));
        KeepsAdding(connections, database.value, connection);
        connections := connections[database.value := connection];
        return Success(connection);
      }
      if "default" in connections {
        assert route == Success(Reuse("default"));
        return Success(connections["default"]);
      }
      if defaultConfig.None? {
        assert route == Failure(NoDefaultConfig);
        return Failure(NoDefaultConfig);
      }
      assert route == Success(Build("default", defaultConfig.value));
      RouteKeepsShape(configs, connections.Keys, database);
      var defaultConnection := new Connection(defaultConfig.value, network(defaultConfig.value));
      KeepsAdding(connections, "default", defaultConnection);
      connections := connections["default" := defaultConnection];
      return Success(defaultConnection);
    }
  }
}
