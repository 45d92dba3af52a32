/** Building the cache key of a call (`CacheWrapper._get_cache_key`): bind the call's
    arguments, with the receiver in front when the wrapper is bound, to the target's declared
    parameters, then render the key pattern with the bound parameter set. */
module CacheKeys {
  import opened Values
  import opened Binding
  import opened KeyTemplate

  /** What the decorated object is, in the terms `inspect` uses: a plain function (or an
      unbound method), a method bound to a receiver, or anything else (a `staticmethod` or
      `classmethod` object, a callable instance). A bound method's receiver is its `im_self`,
      which Python never leaves None; `BoundMethod(NoneValue)` stands for no call the source
      can make. */
  datatype Kind = Function | BoundMethod(receiver: Value) | Other

  /** A custom `string.Formatter`: `format(pattern, **params)`. */
  datatype KeyFormatter = KeyFormatter(format: (string, map<string, Value>) -> Result<string>)

  /** The positional arguments the target is called with and bound against: a bound method's
      own receiver, then the wrapper's receiver when it is truthy, then the call's arguments. */
  function Positional(kind: Kind, receiver: Value, args: seq<Value>): (p: seq<Value>)
    ensures |p| >= |args| && p[|p| - |args|..] == args
    ensures !kind.BoundMethod? && Truthy(receiver) ==> p == [receiver] + args
    ensures !kind.BoundMethod? && !Truthy(receiver) ==> p == args
    ensures kind.BoundMethod? && Truthy(receiver) ==> p == [kind.receiver, receiver] + args
    ensures kind.BoundMethod? && !Truthy(receiver) ==> p == [kind.receiver] + args
  {
    (if kind.BoundMethod? then [kind.receiver] else []) + (if Truthy(receiver) then [receiver] else []) + args
  }

  /** The key of a call, or the error key building raises before any backend access. */
  function KeyOf(kind: Kind, params: seq<Param>, pattern: string, formatter: Option<KeyFormatter>,
                 receiver: Value, args: seq<Value>, kwargs: map<string, Value>): (r: Result<string>)
    requires DistinctNames(params)
    ensures kind.Other? ==> r == Failure(UnsupportedCallable)
    ensures !kind.Other? && Bind(params, Positional(kind, receiver, args), kwargs).Failure? ==>
      r == Failure(Bind(params, Positional(kind, receiver, args), kwargs).error)
    ensures r.Success? ==> !kind.Other? && Bind(params, Positional(kind, receiver, args), kwargs).Success?
  {
    if kind.Other? then Failure(UnsupportedCallable)
    else
      match Bind(params, Positional(kind, receiver, args), kwargs)
      case Failure(e) => Failure(e)
      case Success(bound) =>
        if formatter.Some? then formatter.value.format(pattern, bound) else Format(pattern, bound)
  }

  /** Without a key formatter, the key is the pattern formatted with the bound parameters:
      `key_pattern.format(**parameters)`. */
  lemma PatternDecides(kind: Kind, params: seq<Param>, pattern: string,
                       receiver: Value, args: seq<Value>, kwargs: map<string, Value>)
    requires DistinctNames(params) && !kind.Other?
    requires Bind(params, Positional(kind, receiver, args), kwargs).Success?
    ensures KeyOf(kind, params, pattern, None, receiver, args, kwargs)
         == Format(pattern, Bind(params, Positional(kind, receiver, args), kwargs).value)
  {
  }

  /** With a key formatter set, the key is whatever it makes of the pattern and the bound
      parameters; the default templating is not consulted. */
  lemma FormatterDecides(f: KeyFormatter, kind: Kind, params: seq<Param>, pattern: string,
                         receiver: Value, args: seq<Value>, kwargs: map<string, Value>)
    requires DistinctNames(params) && !kind.Other?
    requires Bind(params, Positional(kind, receiver, args), kwargs).Success?
    ensures KeyOf(kind, params, pattern, Some(f), receiver, args, kwargs)
         == f.format(pattern, Bind(params, Positional(kind, receiver, args), kwargs).value)
  {
  }

  /** A wrapper bound to a truthy receiver binds it to the first declared parameter; an
      unbound one binds the call's arguments from the first parameter on. */
  lemma ReceiverBindsFirst(params: seq<Param>, receiver: Value, args: seq<Value>, kwargs: map<string, Value>)
    requires DistinctNames(params) && |params| > 0
    ensures Truthy(receiver) && Bind(params, Positional(Function, receiver, args), kwargs).Success? ==>
      Bind(params, Positional(Function, receiver, args), kwargs).value[params[0].name] == receiver
    ensures !Truthy(receiver) && |args| > 0 && Bind(params, Positional(Function, receiver, args), kwargs).Success? ==>
      Bind(params, Positional(Function, receiver, args), kwargs).value[params[0].name] == args[0]
  {
  }

  /** Which receiver a wrapper is bound to does not change the key unless the pattern
      refers to the receiver's parameter. */
  lemma KeyIgnoresReceiver(params: seq<Param>, pattern: string, r1: Value, r2: Value,
                            args: seq<Value>, kwargs: map<string, Value>)
    requires DistinctNames(params) && |params| > 0
    requires Truthy(r1) && Truthy(r2)
    requires params[0].name !in Referenced(Parse(pattern).pieces)
    ensures KeyOf(Function, params, pattern, None, r1, args, kwargs) == KeyOf(Function, params, pattern, None, r2, args, kwargs)
  {
    var p1, p2 := Positional(Function, r1, args), Positional(Function, r2, args);
    assert p1[1..] == args == p2[1..];
    BindIgnoresFirst(params, p1, p2, kwargs);
    var b1, b2 := Bind(params, p1, kwargs), Bind(params, p2, kwargs);
    if b1.Success? {
      SameReferenced(params, b1.value, b2.value, Parse(pattern).pieces);
      RenderUsesReferencedOnly(Parse(pattern).pieces, b1.value, b2.value);
    }
  }

  /** Bindings that agree on every parameter but the first agree on every field a pattern
      that does not mention the first parameter refers to. */
  lemma SameReferenced(params: seq<Param>, m1: map<string, Value>, m2: map<string, Value>, pieces: seq<Piece>)
    requires |params| > 0 && DistinctNames(params)
    requires m1.Keys == Names(params) && m2.Keys == Names(params)
    requires forall i :: 1 <= i < |params| ==> m1[params[i].name] == m2[params[i].name]
    requires params[0].name !in Referenced(pieces)
    ensures forall n :: n in Referenced(pieces) ==> (n in m1 <==> n in m2) && (n in m1 ==> m1[n] == m2[n])
  {
    forall n | n in Referenced(pieces) && n in m1
      ensures m1[n] == m2[n]
    {
      var i :| 0 <= i < |params| && params[i].name == n;
    }
  }
}
