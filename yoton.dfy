/** The cache decorator (`yoton/__init__.py`): `YoTon` holds a connection factory and a
    serializer; `YoTon.cache` wraps a callable in a `CacheWrapper`, whose call looks the call's
    key up in the database the wrapper is bound to and runs the callable only on a miss. */
module Yoton {
  import opened Values
  import opened Binding
  import opened CacheKeys
  import opened Connections

  /** An object with `dumps` and `loads` (`pickle` by default). `dumps` fails on a value it
      cannot serialize, `loads` on a payload it cannot read. */
  datatype Serializer = Serializer(dumps: Value -> Option<Bytes>, loads: Bytes -> Option<Value>)

  /** Whatever `dumps` writes, `loads` reads back as the same value. */
  ghost predicate RoundTrips(s: Serializer)
  {
    forall v :: s.dumps(v).Some? ==> s.loads(s.dumps(v).value) == Some(v)
  }

  /** What a payload read from the database decodes to. */
  function Decode(s: Serializer, payload: Bytes): (r: Result<Value>)
    ensures r.Success? <==> s.loads(payload).Some?
    ensures r.Success? ==> Some(r.value) == s.loads(payload)
    ensures r.Failure? ==> r.error == CorruptPayload
  {
    match s.loads(payload)
    case None => Failure(CorruptPayload)
    case Some(v) => Success(v)
  }

  /** Under a round-tripping serializer, a stored result decodes to itself. */
  lemma DecodeEncoded(s: Serializer, v: Value)
    requires RoundTrips(s) && s.dumps(v).Some?
    ensures Decode(s, s.dumps(v).value) == Success(v)
  {
  }

  /** What a call does to the entries of the database it reaches, what it returns, and
      whether it ran the callable. */
  datatype Outcome = Outcome(result: Result<Value>, entries: map<string, Entry>, ran: bool)

  /** `__call__` once the key and the connection are known: a present key answers from its
      payload; an absent one runs the callable (whose result is `run`) and stores the
      serialized result, None included, with expiry `ttl`. A result that cannot be serialized,
      or an expiry Redis refuses, fails the call after the callable has run. */
  function Cached(s: Serializer, entries: map<string, Entry>, key: string, ttl: int, run: Result<Value>): (o: Outcome)
    ensures o.ran <==> key !in entries
    ensures key in entries ==> o.result == Decode(s, entries[key].payload) && o.entries == entries
    ensures key !in entries && run.Failure? ==> o.result == run && o.entries == entries
    ensures key !in entries && run.Success? && s.dumps(run.value).None? ==>
      o.result == Failure(NotSerializable) && o.entries == entries
    ensures key !in entries && run.Success? && s.dumps(run.value).Some? && ttl <= 0 ==>
      o.result == Failure(InvalidExpireTime) && o.entries == entries
    ensures key !in entries && run.Success? && s.dumps(run.value).Some? && ttl > 0 ==>
      o.result == run && o.entries == entries[key := Entry(s.dumps(run.value).value, ttl)]
  {
    if key in entries then Outcome(Decode(s, entries[key].payload), entries, false)
    else
      match run
      case Failure(_) => Outcome(run, entries, true)
      case Success(v) =>
        match s.dumps(v)
        case None => Outcome(Failure(NotSerializable), entries, true)
        case Some(payload) =>
          if ttl <= 0 then Outcome(Failure(InvalidExpireTime), entries, true)
          else Outcome(run, entries[key := Entry(payload, ttl)], true)
  }

  /** `refresh_cache` once the callable has returned `v` and the key and the connection are
      known: a None result deletes the key; any other result is stored afresh, unless it cannot
      be serialized or Redis refuses the expiry. */
  function Refreshed(s: Serializer, entries: map<string, Entry>, key: string, ttl: int, v: Value): (o: Outcome)
    ensures o.ran
    ensures v == NoneValue ==> o.result == Success(NoneValue) && o.entries == entries - {key}
    ensures v != NoneValue && s.dumps(v).Some? && ttl > 0 ==>
      o.result == Success(v) && o.entries == entries[key := Entry(s.dumps(v).value, ttl)]
    ensures v != NoneValue && s.dumps(v).Some? && ttl <= 0 ==>
      o.result == Failure(InvalidExpireTime) && o.entries == entries
    ensures v != NoneValue && s.dumps(v).None? ==> o.result == Failure(NotSerializable) && o.entries == entries
  {
    if v == NoneValue then Outcome(Success(v), entries - {key}, true)
    else
      match s.dumps(v)
      case None => Outcome(Failure(NotSerializable), entries, true)
      case Some(payload) =>
        if ttl <= 0 then Outcome(Failure(InvalidExpireTime), entries, true)
        else Outcome(Success(v), entries[key := Entry(payload, ttl)], true)
  }

  /** A call changes no key of the database but its own. */
  lemma CachedTouchesOnlyKey(s: Serializer, entries: map<string, Entry>, key: string, ttl: int, run: Result<Value>, k: string)
    requires k != key
    ensures k in Cached(s, entries, key, ttl, run).entries <==> k in entries
    ensures k in entries ==> Cached(s, entries, key, ttl, run).entries[k] == entries[k]
  {
  }

  /** A call that succeeded leaves the database answering the next call with the same result,
      without running the callable, whatever the callable would return then. */
  lemma CachedSettles(s: Serializer, entries: map<string, Entry>, key: string, ttl: int, run: Result<Value>, next: Result<Value>)
    requires RoundTrips(s)
    requires Cached(s, entries, key, ttl, run).result.Success?
    ensures var o := Cached(s, entries, key, ttl, run);
            Cached(s, o.entries, key, ttl, next) == Outcome(o.result, o.entries, false)
  {
    var o := Cached(s, entries, key, ttl, run);
    if key !in entries {
      DecodeEncoded(s, run.value);
    }
  }

  /** After a refresh that stored a result, the next call returns that result without running
      the callable. */
  lemma RefreshThenHit(s: Serializer, entries: map<string, Entry>, key: string, ttl: int, v: Value, next: Result<Value>)
    requires RoundTrips(s)
    requires v != NoneValue && s.dumps(v).Some? && ttl > 0
    ensures Cached(s, Refreshed(s, entries, key, ttl, v).entries, key, ttl, next).result == Success(v)
    ensures !Cached(s, Refreshed(s, entries, key, ttl, v).entries, key, ttl, next).ran
  {
    DecodeEncoded(s, v);
  }

  /** After a refresh whose result is None, or after a delete, the next call runs the
      callable again. */
  lemma RemovedThenRun(s: Serializer, entries: map<string, Entry>, key: string, ttl: int, next: Result<Value>)
    ensures Cached(s, Refreshed(s, entries, key, ttl, NoneValue).entries, key, ttl, next).ran
    ensures Cached(s, entries - {key}, key, ttl, next).ran
  {
  }

  /** The decorated callable: what `inspect` takes it for, its declared parameters, and what
      it returns (or raises) when called with a parameter binding. `runs` counts completed
      calls, and the result may depend on it, as a callable with side effects or a mock with a
      list of answers does. */
  class Target {
    const kind: Kind
    const params: seq<Param>
    const body: (nat, map<string, Value>) -> Result<Value>
    var runs: nat

    predicate Valid()
    {
      DistinctNames(params)
    }

    constructor (kind: Kind, params: seq<Param>, body: (nat, map<string, Value>) -> Result<Value>)
      requires DistinctNames(params)
      ensures this.kind == kind && this.params == params && this.body == body && runs == 0
      ensures Valid()
    {
      this.kind := kind;
      this.params := params;
      this.body := body;
      runs := 0;
    }

    /** Call the callable with its full positional arguments: Python binds them as
        `getcallargs` does, raising a TypeError before the body runs when they do not fit. */
    method Run(positional: seq<Value>, kwargs: map<string, Value>) returns (r: Result<Value>)
      requires Valid()
      modifies this
      ensures Bind(params, positional, kwargs).Failure? ==>
        r == Failure(Bind(params, positional, kwargs).error) && runs == old(runs)
      ensures Bind(params, positional, kwargs).Success? ==>
        r == body(old(runs), Bind(params, positional, kwargs).value) && runs == old(runs) + 1
    {
      var bound := Bind(params, positional, kwargs);
      if bound.Failure? {
        return Failure(bound.error);
      }
      r := body(runs, bound.value);
      runs := runs + 1;
    }
  }

  /** `YoTon`: the connection factory built from the cache server configs, and the
      serializer. */
  class YoTon {
    const factory: ConnectionFactory
    const serializer: Serializer

    constructor (cacheServers: map<string, Option<Config>>, network: Config -> Server, serializer: Serializer)
      ensures fresh(factory) && factory.configs == cacheServers && factory.network == network
      ensures factory.connections == map[] && factory.Valid()
      ensures this.serializer == serializer
    {
      factory := new ConnectionFactory(cacheServers, network);
      this.serializer := serializer;
    }

    /** `yoton.cache(key_pattern, expire_seconds, key_formatter, database)(func)`: a fresh,
        unbound wrapper around the callable. */
    method Cache(keyPattern: string, expireSeconds: int, keyFormatter: Option<KeyFormatter>,
                 database: Option<string>, target: Target) returns (w: CacheWrapper)
      ensures fresh(w) && w.yoton == this && w.target == target
      ensures w.keyPattern == keyPattern && w.expireSeconds == expireSeconds
      ensures w.keyFormatter == keyFormatter && w.database == database
      ensures w.outCaller == NoneValue
    {
      w := new CacheWrapper(this, target, keyPattern, expireSeconds, keyFormatter, database);
    }
  }

  /** `CacheWrapper`: the callable and the decorator's arguments, plus the receiver the
      wrapper was last looked up through (`out_caller`). */
  class CacheWrapper {
    const yoton: YoTon
    const target: Target
    const keyPattern: string
    const expireSeconds: int
    const keyFormatter: Option<KeyFormatter>
    const database: Option<string>
    var outCaller: Value

    ghost predicate Valid()
      reads this, yoton.factory, target
    {
      yoton.factory.Valid() && target.Valid()
    }

    constructor (yoton: YoTon, target: Target, keyPattern: string, expireSeconds: int,
                 keyFormatter: Option<KeyFormatter>, database: Option<string>)
      ensures this.yoton == yoton && this.target == target && this.keyPattern == keyPattern
      ensures this.expireSeconds == expireSeconds && this.keyFormatter == keyFormatter
      ensures this.database == database && outCaller == NoneValue
    {
      this.yoton := yoton;
      this.target := target;
      this.keyPattern := keyPattern;
      this.expireSeconds := expireSeconds;
      this.keyFormatter := keyFormatter;
      this.database := database;
      outCaller := NoneValue;
    }

    /** The key of a call made through this wrapper in its current state. */
    function Key(args: seq<Value>, kwargs: map<string, Value>): Result<string>
      requires DistinctNames(target.params)
      reads this
    {
      KeyOf(target.kind, target.params, keyPattern, keyFormatter, outCaller, args, kwargs)
    }

    /** The positional arguments the callable receives for a call through this wrapper. */
    function CallArgs(args: seq<Value>): seq<Value>
      reads this
    {
      Positional(target.kind, outCaller, args)
    }

    /** The database a call through this wrapper reaches. */
    ghost function Store(): set<Server>
      reads this, yoton
    {
      yoton.factory.ServerFor(database)
    }

    /** `__get__(instance, owner)`: remember `instance or owner` as the receiver of later
        calls and return the wrapper itself. */
    method Get(instance: Value, owner: Value) returns (w: CacheWrapper)
      modifies this
      ensures w == this
      ensures outCaller == (if Truthy(instance) then instance else owner)
    {
      outCaller := if Truthy(instance) then instance else owner;
      w := this;
    }

    /** What the callable returns (or raises) for a call through this wrapper after `runs`
        earlier runs, or the TypeError raised when the arguments do not bind. */
    ghost function Ran(args: seq<Value>, kwargs: map<string, Value>, runs: nat): Result<Value>
      requires target.Valid()
      reads this
    {
      match Bind(target.params, CallArgs(args), kwargs)
      case Failure(e) => Failure(e)
      case Success(bound) => target.body(runs, bound)
    }

    /** Where the key and the connection of a call lead while `pool` holds the pooled
        aliases: the key, or the error raised building the key or getting the connection. */
    ghost function Reach(args: seq<Value>, kwargs: map<string, Value>, pool: set<string>): Result<string>
      requires target.Valid()
      reads this
    {
      match Key(args, kwargs)
      case Failure(e) => Failure(e)
      case Success(key) =>
        match Route(yoton.factory.configs, pool, database)
        case Failure(e) => Failure(e)
        case Success(_) => Success(key)
    }

    /** The connection pool's aliases after a call for this wrapper's database. */
    ghost function Pooled(pool: set<string>): set<string>
      reads this
    {
      var route := Route(yoton.factory.configs, pool, database);
      if route.Success? then pool + {route.value.alias} else pool
    }

    /** `_execute_function`: call the callable, the receiver first when there is one. */
    method Execute(args: seq<Value>, kwargs: map<string, Value>) returns (r: Result<Value>)
      requires target.Valid()
      modifies target
      ensures r == Ran(args, kwargs, old(target.runs))
      ensures target.runs == old(target.runs) + (if Bind(target.params, CallArgs(args), kwargs).Success? then 1 else 0)
    {
      r := target.Run(CallArgs(args), kwargs);
    }

    /** `call`: run the callable without reading or filling the cache. */
    method Call(args: seq<Value>, kwargs: map<string, Value>) returns (r: Result<Value>)
      requires target.Valid()
      modifies target
      ensures r == Ran(args, kwargs, old(target.runs))
      ensures target.runs == old(target.runs) + (if Bind(target.params, CallArgs(args), kwargs).Success? then 1 else 0)
    {
      r := Execute(args, kwargs);
    }

    /** The steps `__call__`, `refresh_cache` and `delete_cache` share once the key has been
        built: a key that could not be built fails the call before any connection is asked
        for; otherwise get the connection for the wrapper's database. */
    method Connect(key: Result<string>) returns (connection: Result<Connection>)
      requires yoton.factory.Valid()
      modifies yoton.factory
      ensures yoton.factory.Valid()
      ensures key.Failure? ==>
        connection == Failure(key.error) && yoton.factory.connections == old(yoton.factory.connections)
      ensures key.Success? && Route(yoton.factory.configs, old(yoton.factory.connections).Keys, database).Failure? ==>
        && connection == Failure(Route(yoton.factory.configs, old(yoton.factory.connections).Keys, database).error)
        && yoton.factory.connections == old(yoton.factory.connections)
      ensures key.Success? && Route(yoton.factory.configs, old(yoton.factory.connections).Keys, database).Success? ==>
        && connection.Success? && yoton.factory.Serves(database)
        && connection.value.server == yoton.factory.ServerOf(database)
        && yoton.factory.connections.Keys == Pooled(old(yoton.factory.connections).Keys)
        && Keeps(old(yoton.factory.connections), yoton.factory.connections)
    {
      if key.Failure? {
        return Failure(key.error);
      }
      connection := yoton.factory.GetConnection(key.value, database);
    }

    /** `__call__`: build the key, get the connection, and answer from the database when the
        key is there; otherwise run the callable and store its serialized result (see
        `Cached`). */
    method Invoke(args: seq<Value>, kwargs: map<string, Value>) returns (r: Result<Value>)
      requires Valid()
      modifies yoton.factory, target, Store()
      ensures Valid() && outCaller == old(outCaller)
      ensures Reach(args, kwargs, old(yoton.factory.connections).Keys).Failure? ==>
        && r == Failure(Reach(args, kwargs, old(yoton.factory.connections).Keys).error)
        && yoton.factory.connections == old(yoton.factory.connections)
        && target.runs == old(target.runs) && unchanged(Store())
      ensures Reach(args, kwargs, old(yoton.factory.connections).Keys).Success? ==>
        && yoton.factory.Serves(database)
        && yoton.factory.connections.Keys == Pooled(old(yoton.factory.connections).Keys)
        && Keeps(old(yoton.factory.connections), yoton.factory.connections)
        && var o := Cached(yoton.serializer, old(yoton.factory.ServerOf(database).entries),
                           Reach(args, kwargs, old(yoton.factory.connections).Keys).value,
                           expireSeconds, Ran(args, kwargs, old(target.runs)));
           && r == o.result
           && yoton.factory.ServerOf(database).entries == o.entries
           && target.runs == old(target.runs) + (if o.ran then 1 else 0)
    {
      ghost var servers := Store();
      assert forall x :: x in servers ==> allocated(x);
      ghost var pooled := Pooled(yoton.factory.connections.Keys);
      var key := Key(args, kwargs);
      var connection := Connect(key);
      if connection.Failure? {
        return Failure(connection.error);
      }
      assert yoton.factory.connections.Keys == pooled;
      assert key.value == Reach(args, kwargs, old(yoton.factory.connections).Keys).value;
      assert connection.value.server.entries == old(yoton.factory.ServerOf(database).entries);
      ghost var pool := yoton.factory.connections;
      ghost var run := Ran(args, kwargs, target.runs);
      r := Answer(connection.value, key.value, args, kwargs);
      assert run == Ran(args, kwargs, old(target.runs));
      assert yoton.factory.connections == pool;
    }

    /** The part of `__call__` after the connection is known: answer from the payload stored
        under the key, or run the callable and store its serialized result. */
    method Answer(connection: Connection, key: string, args: seq<Value>, kwargs: map<string, Value>) returns (r: Result<Value>)
      requires target.Valid() && Bind(target.params, CallArgs(args), kwargs).Success?
      modifies connection.server, target
      ensures var o := Cached(yoton.serializer, old(connection.server.entries), key, expireSeconds, Ran(args, kwargs, old(target.runs)));
        && r == o.result
        && connection.server.entries == o.entries
        && target.runs == old(target.runs) + (if o.ran then 1 else 0)
    {
      var data := connection.Get(key);
      if data.Some? {
        r := Decode(yoton.serializer, data.value);
      } else {
        r := Execute(args, kwargs);
        if r.Success? {
          var serialized := yoton.serializer.dumps(r.value);
          if serialized.None? {
            return Failure(NotSerializable);
          }
          var stored := connection.SetEx(key, expireSeconds, serialized.value);
          if !stored {
            return Failure(InvalidExpireTime);
          }
        }
      }
    }

    /** `refresh_cache`: run the callable first; then build the key, get the connection, and
        store the result afresh, or delete the key when the result is None (see `Refreshed`). */
    method RefreshCache(args: seq<Value>, kwargs: map<string, Value>) returns (r: Result<Value>)
      requires Valid()
      modifies yoton.factory, target, Store()
      ensures Valid() && outCaller == old(outCaller)
      ensures target.runs == old(target.runs) + (if Bind(target.params, CallArgs(args), kwargs).Success? then 1 else 0)
      ensures Ran(args, kwargs, old(target.runs)).Failure? ==>
        && r == Ran(args, kwargs, old(target.runs))
        && yoton.factory.connections == old(yoton.factory.connections) && unchanged(Store())
      ensures Ran(args, kwargs, old(target.runs)).Success? && Reach(args, kwargs, old(yoton.factory.connections).Keys).Failure? ==>
        && r == Failure(Reach(args, kwargs, old(yoton.factory.connections).Keys).error)
        && yoton.factory.connections == old(yoton.factory.connections) && unchanged(Store())
      ensures Ran(args, kwargs, old(target.runs)).Success? && Reach(args, kwargs, old(yoton.factory.connections).Keys).Success? ==>
        && yoton.factory.Serves(database)
        && yoton.factory.connections.Keys == Pooled(old(yoton.factory.connections).Keys)
        && Keeps(old(yoton.factory.connections), yoton.factory.connections)
        && var o := Refreshed(yoton.serializer, old(yoton.factory.ServerOf(database).entries),
                              Reach(args, kwargs, old(yoton.factory.connections).Keys).value,
                              expireSeconds, Ran(args, kwargs, old(target.runs)).value);
           r == o.result && yoton.factory.ServerOf(database).entries == o.entries
    {
      ghost var servers := Store();
      assert forall x :: x in servers ==> allocated(x);
      r := Execute(args, kwargs);
      if r.Failure? {
        return r;
      }
      r := Renew(args, kwargs, r.value);
    }

    /** The part of `refresh_cache` after the callable has returned `v`: build the key, get
        the connection, then store or delete. */
    method Renew(args: seq<Value>, kwargs: map<string, Value>, v: Value) returns (r: Result<Value>)
      requires Valid()
      modifies yoton.factory, Store()
      ensures Valid()
      ensures Reach(args, kwargs, old(yoton.factory.connections).Keys).Failure? ==>
        && r == Failure(Reach(args, kwargs, old(yoton.factory.connections).Keys).error)
        && yoton.factory.connections == old(yoton.factory.connections) && unchanged(Store())
      ensures Reach(args, kwargs, old(yoton.factory.connections).Keys).Success? ==>
        && yoton.factory.Serves(database)
        && yoton.factory.connections.Keys == Pooled(old(yoton.factory.connections).Keys)
        && Keeps(old(yoton.factory.connections), yoton.factory.connections)
        && var o := Refreshed(yoton.serializer, old(yoton.factory.ServerOf(database).entries),
                              Reach(args, kwargs, old(yoton.factory.connections).Keys).value, expireSeconds, v);
           r == o.result && yoton.factory.ServerOf(database).entries == o.entries
    {
      ghost var servers := Store();
      assert forall x :: x in servers ==> allocated(x);
      var key := Key(args, kwargs);
      var connection := Connect(key);
      if connection.Failure? {
        return Failure(connection.error);
      }
      r := Put(connection.value, key.value, v);
    }

    /** Store `v` under the key, or delete the key when `v` is None. */
    method Put(connection: Connection, key: string, v: Value) returns (r: Result<Value>)
      modifies connection.server
      ensures var o := Refreshed(yoton.serializer, old(connection.server.entries), key, expireSeconds, v);
        r == o.result && connection.server.entries == o.entries
    {
      if v != NoneValue {
        var serialized := yoton.serializer.dumps(v);
        if serialized.None? {
          return Failure(NotSerializable);
        }
        var stored := connection.SetEx(key, expireSeconds, serialized.value);
        if !stored {
          return Failure(InvalidExpireTime);
        }
      } else {
        connection.Delete(key);
      }
      r := Success(v);
    }

    /** `delete_cache`: build the key, get the connection, delete the key. */
    method DeleteCache(args: seq<Value>, kwargs: map<string, Value>) returns (r: Result<Value>)
      requires Valid()
      modifies yoton.factory, Store()
      ensures Valid() && outCaller == old(outCaller)
      ensures Reach(args, kwargs, old(yoton.factory.connections).Keys).Failure? ==>
        && r == Failure(Reach(args, kwargs, old(yoton.factory.connections).Keys).error)
        && yoton.factory.connections == old(yoton.factory.connections) && unchanged(Store())
      ensures Reach(args, kwargs, old(yoton.factory.connections).Keys).Success? ==>
        && r == Success(NoneValue)
        && yoton.factory.Serves(database)
        && yoton.factory.connections.Keys == Pooled(old(yoton.factory.connections).Keys)
        && Keeps(old(yoton.factory.connections), yoton.factory.connections)
        && yoton.factory.ServerOf(database).entries
           == old(yoton.factory.ServerOf(database).entries) - {Reach(args, kwargs, old(yoton.factory.connections).Keys).value}
    {
      ghost var servers := Store();
      assert forall x :: x in servers ==> allocated(x);
      var key := Key(args, kwargs);
      var connection := Connect(key);
      if connection.Failure? {
        return Failure(connection.error);
      }
      connection.value.Delete(key.value);
      r := Success(NoneValue);
    }

    /** Two calls in a row: once the first has returned a value, the second returns the same
        value from the database and does not run the callable. */
    method InvokeTwice(args: seq<Value>, kwargs: map<string, Value>) returns (r1: Result<Value>, r2: Result<Value>)
      requires Valid() && RoundTrips(yoton.serializer)
      modifies yoton.factory, target, Store()
      ensures r1.Success? ==> r2 == r1 && target.runs <= old(target.runs) + 1
    {
      ghost var pool := yoton.factory.connections.Keys;
      r1 := Invoke(args, kwargs);
      ghost var runs1 := target.runs;
      if r1.Success? {
        RouteSettles(yoton.factory.configs, pool, database);
        CachedSettles(yoton.serializer, old(yoton.factory.ServerOf(database).entries), Reach(args, kwargs, pool).value,
                      expireSeconds, Ran(args, kwargs, old(target.runs)), Ran(args, kwargs, runs1));
      }
      r2 := Invoke(args, kwargs);
    }

    /** A delete followed by a call: the call finds nothing, runs the callable once, and
        stores and returns its result as a miss on the entries left by the delete does. */
    method DeleteThenInvoke(args: seq<Value>, kwargs: map<string, Value>) returns (d: Result<Value>, r: Result<Value>)
      requires Valid()
      modifies yoton.factory, target, Store()
      ensures d.Success? ==>
        && Reach(args, kwargs, old(yoton.factory.connections).Keys).Success?
        && yoton.factory.Serves(database)
        && target.runs == old(target.runs) + 1
        && var o := Cached(yoton.serializer,
                           old(yoton.factory.ServerOf(database).entries) - {Reach(args, kwargs, old(yoton.factory.connections).Keys).value},
                           Reach(args, kwargs, old(yoton.factory.connections).Keys).value,
                           expireSeconds, Ran(args, kwargs, old(target.runs)));
           r == o.result && yoton.factory.ServerOf(database).entries == o.entries
    {
      ghost var pool := yoton.factory.connections.Keys;
      d := DeleteCache(args, kwargs);
      if d.Success? {
        RouteSettles(yoton.factory.configs, pool, database);
      }
      r := Invoke(args, kwargs);
    }

    /** A refresh followed by a call: once the refresh has stored a value other than None,
        the call returns it from the database without running the callable again. */
    method RefreshThenInvoke(args: seq<Value>, kwargs: map<string, Value>) returns (r1: Result<Value>, r2: Result<Value>)
      requires Valid() && RoundTrips(yoton.serializer)
      modifies yoton.factory, target, Store()
      ensures r1.Success? && r1.value != NoneValue ==> r2 == r1 && target.runs == old(target.runs) + 1
    {
      ghost var pool := yoton.factory.connections.Keys;
      r1 := RefreshCache(args, kwargs);
      if r1.Success? && r1.value != NoneValue {
        RouteSettles(yoton.factory.configs, pool, database);
        DecodeEncoded(yoton.serializer, r1.value);
      }
      r2 := Invoke(args, kwargs);
    }
  }
}
