# yoton, modelled in Dafny

yoton is a caching decorator backed by Redis. `YoTon(cache_servers)` holds a connection
factory and a serializer. `YoTon.cache(key_pattern, expire_seconds, key_formatter, database)`
wraps a function or an instance method in a `CacheWrapper`. A call through the wrapper does
four things:

- it binds the call's arguments to the function's parameters, with the receiver first when
  the wrapper was looked up through an instance;
- it renders the key pattern (`str.format` syntax) with the bound parameters;
- it gets a connection for the wrapper's database from `SimpleConnectionFactory`;
- it answers from the cache, or runs the function and stores its serialized result with the
  given expiry.

`call` bypasses the cache. `refresh_cache` reruns the function and overwrites the entry, or
deletes it when the function returned None. `delete_cache` removes the entry.
`SimpleConnectionFactory.get_connection` routes a database alias to a connection. It falls
back to the `default` config and keeps one connection per alias in a pool that only grows.

The model has six modules:

- `Values` (`values.dfy`): the Python values arguments and results take, their truthiness,
  their `str()` text and the errors the core raises.
- `Binding` (`binding.dfy`): `inspect.getcallargs` over an explicit table of parameter names
  and defaults.
- `KeyTemplate` (`template.dfy`): the part of `str.format` key patterns use. A pattern is
  literal text, `{{`/`}}` and `{name}`/`{name.attr}` fields. Parsing is proved to invert
  writing a template, and rendering to distribute over concatenation.
- `CacheKeys` (`keys.dfy`): `_get_cache_key`. `KeyExamples` (`key_examples.dfy`) derives
  from it the six keys the repository's key tests expect: `"test"`, `"test_1_2_3"`,
  `"test_1_3_None"`, `"test_obj_param_name1_name2"`, `"test_without_args"` and
  `"test_with_args_1_3_None"`.
- `Connections` (`connections.dfy`): Redis databases as `Server` objects whose `entries` map
  a key to its payload and expiry; `Connection` handles with `GET`/`SETEX`/`DEL`; and
  `ConnectionFactory`. The factory is a class with a `connections` pool that
  `GetConnection` updates in place. It is proved against the pure decision function
  `Route`.
- `Yoton` (`yoton.dfy`): the `YoTon` and `CacheWrapper` classes, the wrapped callable as a
  `Target` object with a run counter, and the serializer as a pair of functions.
  - Each cache operation is a method that updates the database it reaches.
  - Each is specified by a pure function of the old entries: `Cached` for `__call__` and
    `Refreshed` for `refresh_cache`.
  - Lemmas about these functions give the cross-call properties: a hit after a miss, a hit
    after a refresh, and a miss after a delete. The methods `InvokeTwice`,
    `RefreshThenInvoke` and `DeleteThenInvoke` apply those lemmas to the objects.

Errors Python raises are `Failure` results carrying an `Error`:

- `BindingError`: a TypeError from `getcallargs`;
- `UnsupportedCallable`: the TypeError for a target that is neither a function nor a method;
- `FormatError`, `KeyMissing` and `AttributeMissing`: what `str.format` raises;
- `NoDatabase`: the exception for an unknown alias with no default;
- `NoDefaultConfig`: the TypeError of `**None`;
- `NotSerializable` and `CorruptPayload`: a failing `dumps` or `loads`;
- `InvalidExpireTime`: the error Redis answers a `SETEX` with a non-positive expiry;
- `Raised`: an exception raised by the wrapped function itself.

The network is a parameter. `ConnectionFactory.network` maps a config to the database it
reaches, and building a connection (`_build_redis_connection`) is `new Connection(config,
network(config))`.

One edge case is decided by the code alone. A database alias
can be registered with an empty config while no `default` entry exists. The code then
evaluates `**None` (`yoton/connections.py:37`) and raises a TypeError. `Route` follows the
code and answers `NoDefaultConfig`.

## Model

| member | source | states |
|---|---|---|
| Values.NatTextRoundTrip | yoton/__init__.py:191 | the decimal text `str()` gives a natural number reads back as that number |
| Values.IntTextInjective | yoton/__init__.py:191 | distinct integer arguments render as distinct key text |
| Values.Truthy | yoton/__init__.py:172-175 | a value is truthy exactly when it is not None, False, 0 or the empty string |
| Values.Text | yoton/__init__.py:191 | `str()` of None and of booleans is `None`, `True`, `False`; of a natural number, decimal digits without a leading zero that read back as the number; of a negative number, a minus sign followed by the digits of its absolute value; of a string, the string itself; of an object, its `__str__` text |
| Binding.Supplied | yoton/__init__.py:182-186 | a parameter takes its positional argument when there is one, else its keyword argument, else its default; it is unsupplied exactly when none of these exists |
| Binding.Bind | yoton/__init__.py:182-186 | binding succeeds exactly when there are not too many positional arguments, no parameter is given both positionally and by keyword, no keyword is unknown, and every parameter gets a value; each parameter is then bound to its positional argument, else its keyword argument, else its default, and the binding covers exactly the declared names; every failure is a binding TypeError |
| Binding.FirstClash | yoton/__init__.py:183-186 | reports a parameter passed both positionally and by keyword exactly when one exists, and names a declared parameter that is among the keywords |
| Binding.Bound | yoton/__init__.py:183-186 | the binding of a fully supplied call has exactly the declared names as keys, each bound to what it was supplied |
| Binding.BindIgnoresFirst | yoton/__init__.py:182-186 | calls differing only in their first positional argument fail alike or bind every other parameter alike |
| KeyTemplate.BraceFrom | yoton/__init__.py:191 | finds the first `{` or `}` at or after a position, or reports there is none |
| KeyTemplate.SplitJoin | yoton/__init__.py:191 | splitting the dotted text of a field at its dots gives back the name and the attributes |
| KeyTemplate.UnparseAppend | yoton/__init__.py:191 | the text of a template is the text of its parts in order |
| KeyTemplate.UnparseLiteral | yoton/__init__.py:191 | brace-free literal text is written as itself |
| KeyTemplate.ParseUnparse | yoton/__init__.py:191 | parsing the text written for any template made of literal characters and `{name.attr…}` fields gives back exactly that template, with no syntax error |
| KeyTemplate.LiteralParses | yoton/__init__.py:191 | brace-free text parses, with no syntax error, to one literal piece per character |
| KeyTemplate.JoinSplit | yoton/__init__.py:191 | rejoining the dot-separated parts of a field's text gives back the text |
| KeyTemplate.UnparseParse | yoton/__init__.py:191 | any pattern that parses without a syntax error is written back as exactly the text it was read from, so parsing loses nothing |
| KeyTemplate.Follow | yoton/__init__.py:191 | no attributes give the value itself; an empty attribute name fails with a format error; an attribute the object has is looked up and the rest of the chain followed from its value; any other attribute fails as missing, naming it |
| KeyTemplate.Resolve | yoton/__init__.py:191 | a field resolves only when its name is neither empty nor all digits and is among the bound parameters, and then to the attribute chain followed from that parameter's value |
| KeyTemplate.RenderFailsAtFirst | yoton/__init__.py:191 | a template renders exactly when each of its pieces does; otherwise its error is that of a failing piece all of whose predecessors render |
| KeyTemplate.Render | yoton/__init__.py:191 | a parsed template renders exactly when its pieces render and the scan found no syntax error, and then to the concatenated text of its pieces; the pieces read before a syntax error render first, so a failing field ahead of it raises its own error |
| KeyTemplate.Format | yoton/__init__.py:191 | `pattern.format(**params)` succeeds only for a pattern without syntax errors |
| KeyTemplate.FormatWritten | yoton/__init__.py:191 | formatting the text of any template of literal characters and `{name.attr…}` fields renders that template |
| KeyTemplate.RenderAppend | yoton/__init__.py:191 | rendering a concatenation of templates renders the first and then the second, and the first failing field's error wins |
| KeyTemplate.RenderLiteral | yoton/__init__.py:191 | literal text renders as itself whatever the parameters |
| KeyTemplate.RenderField | yoton/__init__.py:191 | a field `{name}` renders as the `str()` of the value bound to the name |
| KeyTemplate.RenderUsesReferencedOnly | yoton/__init__.py:191 | the key depends on the bound parameters only through the names the pattern's fields mention |
| CacheKeys.Positional | yoton/__init__.py:171-175 | a wrapper with a truthy receiver passes the receiver followed by the call's arguments; one without passes the arguments unchanged; a bound method's own receiver goes first, before the wrapper's receiver when that is truthy; the call's arguments always end the list |
| CacheKeys.KeyOf | yoton/__init__.py:177-191 | a target that is neither a function nor a method fails with `UnsupportedCallable` before anything is bound; a call whose arguments do not bind fails with the binding's error; a key exists only for a supported target whose arguments bind |
| CacheKeys.PatternDecides | yoton/__init__.py:190-191 | without a key formatter, the key of a supported target whose arguments bind is the key pattern formatted with the bound parameters |
| CacheKeys.FormatterDecides | yoton/__init__.py:188-189 | with a key formatter set, the key is what the formatter makes of the pattern and the bound parameters |
| CacheKeys.ReceiverBindsFirst | yoton/__init__.py:182-186 | a bound wrapper's receiver is bound to the first parameter; an unbound wrapper binds its first argument there |
| CacheKeys.KeyIgnoresReceiver | yoton/__init__.py:182-191 | two receivers give the same key (or the same error) when the pattern does not mention the receiver's parameter |
| CacheKeys.SameReferenced | yoton/__init__.py:182-191 | bindings that agree on all parameters but the first agree on every name a pattern without the first parameter refers to |
| KeyExamples.KeyWithoutArguments | tests/test_wrapper.py:81-86 | `"test"` for `f()` called as `f()` gives `"test"` |
| KeyExamples.KeyWithArguments | tests/test_wrapper.py:88-94 | `"test_{arg1}_{arg2}_{arg3}"` for `f(arg1, arg2=3, arg3=None)` called as `f(1, 2, 3)` gives `"test_1_2_3"` |
| KeyExamples.KeyOfBoundWrapperWithoutArguments | tests/test_wrapper.py:117-119 | an instance method `m(self)` wrapped with `"test_without_args"` and called as `instance.m()` binds the instance to `self` and gives `"test_without_args"` |
| KeyExamples.LiteralKey | yoton/__init__.py:182-191 | for a function or a method, with or without receiver and keyword arguments, a brace-free pattern is the key of every call whose arguments bind |
| KeyExamples.KeyWithDefaults | tests/test_wrapper.py:96-102 | `"test_{arg1}_{arg2}_{arg3}"` for `f(arg1, arg2=3, arg3=None)` called as `f(1)` gives `"test_1_3_None"` |
| KeyExamples.KeyWithAttributes | tests/test_wrapper.py:104-115 | `"test_obj_param_{obj1.name}_{obj2.name}"` for two objects named `name1` and `name2` gives `"test_obj_param_name1_name2"` |
| KeyExamples.KeyOfBoundWrapper | tests/test_wrapper.py:121-123 | an instance method wrapped with `"test_with_args_{arg1}_{arg2}_{arg3}"` and called as `instance.m(1)` binds the instance to `self` and gives `"test_with_args_1_3_None"` |
| KeyExamples.ThreeFieldsParsed | tests/test_wrapper.py:96-102 | a pattern `<literal>{a}_{b}_{c}` parses into its literal text and three fields, with no syntax error |
| KeyExamples.ThreeFieldsRendered | tests/test_wrapper.py:96-102 | `<literal>{a}_{b}_{c}` renders the `str()` of the three bound values, joined by `_`, after the literal |
| KeyExamples.TwoAttributesParsed | tests/test_wrapper.py:104-115 | a pattern `<literal>{a.attr}_{b.attr}` parses into its literal text and two attribute fields |
| KeyExamples.TwoAttributesRendered | tests/test_wrapper.py:104-115 | `<literal>{a.attr}_{b.attr}` renders the attribute of each bound object |
| KeyExamples.DefaultsBound | tests/test_wrapper.py:96-102 | `f(1)` against `(arg1, arg2=3, arg3=None)` binds 1, 3 and None |
| KeyExamples.MethodDefaultsBound | tests/test_wrapper.py:121-123 | a bound wrapper's call `m(1)` against `(self, arg1, arg2=3, arg3=None)` binds the receiver, 1, 3 and None |
| KeyExamples.ArgumentsBound | tests/test_wrapper.py:88-94 | `f(1, 2, 3)` against `(arg1, arg2=3, arg3=None)` binds 1, 2 and 3, overriding the defaults |
| KeyExamples.ObjectsBound | tests/test_wrapper.py:104-115 | two positional arguments bind to `obj1` and `obj2` in order |
| Connections.Connection.Get | yoton/__init__.py:132 | `GET` returns a payload exactly when the key is stored, and then the stored payload |
| Connections.Connection.SetEx | yoton/__init__.py:138-139 | `SETEX` stores exactly when the expiry is positive, and then stores the payload with its expiry under the key and changes no other key; a refused expiry changes nothing |
| Connections.Connection.Delete | yoton/__init__.py:169 | `DEL` removes the key and changes no other key; an absent key leaves the database as it was |
| Connections.Lookup | yoton/connections.py:27 | `redis_config.get(alias)` is the config registered under the alias, and nothing for an absent alias |
| Connections.Route | yoton/connections.py:20-39 | a reuse plan names a pooled alias; a build plan names an alias not yet pooled and the config registered under it; the unknown-database error happens exactly when the alias is unregistered and the default config is missing or empty; the missing-default TypeError happens exactly when the code reaches `**None`; there are no other errors |
| Connections.RouteDestination | yoton/connections.py:20-39 | whether reused or built, the connection for a database is always the one for its own usable config, else for `default`; which connections are pooled does not change that |
| Connections.RouteSettles | yoton/connections.py:25-26 | once the chosen alias is pooled, the same database is routed to a reuse of that alias |
| Connections.RouteKeepsShape | yoton/connections.py:29-38 | pooling the alias a plan builds keeps every pooled alias either `default` or an alias with a usable config of its own |
| Connections.ConnectionFactory.constructor | yoton/connections.py:15-18 | a new factory keeps the configs, reads `default` once, and starts with an empty pool |
| Connections.ConnectionFactory.GetConnection | yoton/connections.py:20-39 | fails exactly when `Route` fails, with its error and no pool change; a reuse plan returns the pooled connection and leaves the pool unchanged; a build plan returns a fresh connection built from the plan's config, added under an alias not yet pooled and nothing else changed; any returned connection reaches the database of the destination alias's config; the pool invariant is kept; the cache key is not consulted |
| Yoton.Decode | yoton/__init__.py:134 | a payload decodes exactly when `loads` reads it, to what `loads` reads, and otherwise fails with `CorruptPayload` |
| Yoton.DecodeEncoded | yoton/__init__.py:133-139 | with a round-tripping serializer, a stored result decodes to itself |
| Yoton.Cached | yoton/__init__.py:132-140 | the callable runs exactly when the key is absent; a present key answers with its decoded payload and leaves the database unchanged; on a miss the result (None included) is returned and stored with the wrapper's expiry; a raising callable, an unserializable result or a non-positive expiry stores nothing, and the last two fail the call with `NotSerializable` or `InvalidExpireTime` |
| Yoton.Refreshed | yoton/__init__.py:152-162 | the callable has always run; a None result is returned and its key deleted; any other result is returned and stored afresh with the wrapper's expiry, unless it cannot be serialized or the expiry is not positive, which fail with nothing stored |
| Yoton.CachedTouchesOnlyKey | yoton/__init__.py:132-140 | a call leaves every other key of the database as it was |
| Yoton.CachedSettles | yoton/__init__.py:132-140 | after a call that returned a value, the next call with the same key returns the same value without running the callable, whatever it would return |
| Yoton.RefreshThenHit | yoton/__init__.py:147-162 | after a refresh stored a value other than None with a positive expiry, the next call returns that value without running the callable |
| Yoton.RemovedThenRun | yoton/__init__.py:156-169 | after a refresh whose result is None, or after a delete, the next call runs the callable |
| Yoton.Target.Run | yoton/__init__.py:171-175 | arguments that do not bind raise the binding TypeError without running the body; otherwise the body runs once on the binding |
| Yoton.YoTon.constructor | yoton/__init__.py:63-64 | a new `YoTon` holds a fresh connection factory over the given configs, with an empty pool, and the given serializer |
| Yoton.YoTon.Cache | yoton/__init__.py:82-91 | `cache(...)(func)` is a fresh, unbound wrapper around the callable with the decorator's arguments |
| Yoton.CacheWrapper.constructor | yoton/__init__.py:100-120 | a new wrapper keeps the decorator's arguments and has no receiver |
| Yoton.CacheWrapper.Get | yoton/__init__.py:122-126 | looking the wrapper up records `instance or owner` as its receiver and returns the wrapper itself |
| Yoton.CacheWrapper.Execute | yoton/__init__.py:171-175 | returns what the callable returns for the receiver-prefixed arguments; it runs once when they bind and not at all when they do not |
| Yoton.CacheWrapper.Call | yoton/__init__.py:142-145 | returns what the callable returns, and runs it once when the arguments bind and not at all otherwise; no database and no connection is touched |
| Yoton.CacheWrapper.Connect | yoton/__init__.py:129-131 | a key that could not be built fails before any connection is asked for; otherwise the factory's answer, reaching the wrapper's database, with every connection pooled before kept under its alias |
| Yoton.CacheWrapper.Invoke | yoton/__init__.py:128-140 | a key or connection failure raises before the callable runs or a database changes; otherwise the result, the database's new entries and whether the callable ran are those of `Cached` on the old entries, and the pool keeps every connection it held |
| Yoton.CacheWrapper.Answer | yoton/__init__.py:132-140 | with the connection known, the result, the new entries and the run count follow `Cached` |
| Yoton.CacheWrapper.RefreshCache | yoton/__init__.py:147-162 | the callable runs first, once when its arguments bind; its failure is returned with no database change; a later key or connection failure is returned with no database change; otherwise the result and the new entries are those of `Refreshed`, and the pool keeps every connection it held |
| Yoton.CacheWrapper.Renew | yoton/__init__.py:153-161 | with the callable's result known, a key or connection failure changes nothing; otherwise result and entries follow `Refreshed`, and the pool keeps every connection it held |
| Yoton.CacheWrapper.Put | yoton/__init__.py:156-161 | stores the result afresh, or deletes the key for None, as `Refreshed` says |
| Yoton.CacheWrapper.DeleteCache | yoton/__init__.py:164-169 | a key or connection failure changes nothing; otherwise exactly the call's key is removed from the database it reaches, the pool keeps every connection it held, and None is returned |
| Yoton.CacheWrapper.InvokeTwice | tests/test_wrapper.py:133-144 | when a first call returns a value, a second identical call returns the same value, and the callable ran at most once over both |
| Yoton.CacheWrapper.RefreshThenInvoke | tests/test_wrapper.py:155-168 | after a refresh that returned a value other than None, the next call returns that value and the callable ran only for the refresh |
| Yoton.CacheWrapper.DeleteThenInvoke | tests/test_wrapper.py:182-191 | after a successful delete, the next call runs the callable once; its result and the database's new entries are those of `Cached` on the old entries without the key |

## Left out

- Time and expiry: an entry records the expiry it was stored with, and entries never expire
  in the model.
- The `pickle` format: the serializer is any pair of `dumps`/`loads` functions. The round
  trip `loads(dumps(v)) == v` is a hypothesis (`RoundTrips`) where a property needs it.
- Yoton.YoTon.constructor: always builds the simple factory; a custom
  `connection_factory_cls` is not modelled. The abstract `ConnectionFactory.get_connection`
  is not modelled either, since it only raises `NotImplementedError`.
- The Redis client and the network: `redis.Redis(**config)` is not modelled. The database a
  config reaches is the `network` parameter of the factory.
- Python reflection: `inspect.ismethod`/`isfunction` become the `Kind` of a `Target`, and
  `getcallargs` becomes `Bind` over a parameter table. Signatures with `*args`, `**kwargs` or
  keyword-only parameters are not modelled.
- Yoton.Target.Run: runs the body for a target of kind `Other` too. Whether Python can call a
  `staticmethod` object directly depends on the Python version, which is not modelled.
- The `str.format` mini-language beyond literal text and `{name.attr…}` fields: conversions,
  format specs, indexing and nested fields render as `UnsupportedField`. Automatic and
  explicit positional fields are `PositionalField`, since keys are formatted with keyword
  arguments only. A custom `key_formatter` is an opaque function.
- Truthiness of objects with their own `__bool__` or `__len__`: objects are always truthy.
  `str()` of an object is a fixed text carried by the object.
- Exception messages: errors are tags, not texts.
- KeyTemplate.Follow: attributes resolve only on objects. Attributes of ints, strings and
  booleans (such as `"{x.real}".format(x=5)`) fail with `AttributeMissing`, because the model
  gives those values no attributes.
- Connections.Connection.SetEx: the only failure modelled is Redis refusing a non-positive
  expiry. Connection, timeout and server errors are not modelled, and `GET` and `DEL` never
  fail.
- Concurrency: the code has no locking and the model is sequential.
- Yoton.CacheWrapper.InvokeTwice: states nothing when the first call fails, because a
  failing call caches nothing and the second call then behaves as a first one.
