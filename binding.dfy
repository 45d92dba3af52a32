/** Binding the actual arguments of a call to a callable's declared parameters, as
    `inspect.getcallargs` does for a function without `*args` or `**kwargs`. The declared
    signature is an explicit table of parameter names and defaults. */
module Binding {
  import opened Values

  /** A declared parameter: its name and, when it has one, its default value. */
  datatype Param = Param(name: string, default: Option<Value>)

  /** Python refuses a `def` that repeats a parameter name. */
  predicate DistinctNames(params: seq<Param>)
  {
    forall i, j :: 0 <= i < j < |params| ==> params[i].name != params[j].name
  }

  function Names(params: seq<Param>): set<string>
  {
    set i | 0 <= i < |params| :: params[i].name
  }

  /** What parameter i receives: its positional argument, else its keyword argument, else
      its default; None when it receives nothing. */
  function Supplied(params: seq<Param>, args: seq<Value>, kwargs: map<string, Value>, i: nat): (r: Option<Value>)
    requires i < |params|
    ensures r.None? <==> |args| <= i && params[i].name !in kwargs && params[i].default.None?
    ensures i < |args| ==> r == Some(args[i])
    ensures |args| <= i && params[i].name in kwargs ==> r == Some(kwargs[params[i].name])
    ensures |args| <= i && params[i].name !in kwargs ==> r == params[i].default
  {
    if i < |args| then Some(args[i])
    else if params[i].name in kwargs then Some(kwargs[params[i].name])
    else params[i].default
  }

  /** The first of `params`, in declaration order, that is also passed by keyword. */
  function FirstClash(params: seq<Param>, kwargs: map<string, Value>): (r: Option<string>)
    ensures r.None? <==> forall i :: 0 <= i < |params| ==> params[i].name !in kwargs
    ensures r.Some? ==> r.value in kwargs && r.value in Names(params)
  {
    if params == [] then None
    else if params[0].name in kwargs then Some(params[0].name)
    else
      var r := FirstClash(params[1..], kwargs);
      assert forall i :: 1 <= i < |params| ==> params[i] == params[1..][i - 1];
      r
  }

  /** The bound parameter set of a call, or the TypeError `getcallargs` raises, checked in
      its order: too many positional arguments, a parameter given twice, an unknown keyword,
      a parameter left without a value. */
  function Bind(params: seq<Param>, args: seq<Value>, kwargs: map<string, Value>): (r: Result<map<string, Value>>)
    requires DistinctNames(params)
    ensures |args| > |params| ==> r == Failure(BindingError(TooManyArguments))
    ensures r.Failure? ==> r.error.BindingError?
    ensures r.Success? <==>
      && |args| <= |params|
      && (forall i :: 0 <= i < |args| && i < |params| ==> params[i].name !in kwargs)
      && kwargs.Keys <= Names(params)
      && (forall i :: 0 <= i < |params| ==> Supplied(params, args, kwargs, i).Some?)
    ensures r.Success? ==> r.value.Keys == Names(params)
    ensures r.Success? ==>
      forall i :: 0 <= i < |params| ==> Some(r.value[params[i].name]) == Supplied(params, args, kwargs, i)
  {
    if |params| < |args| || (|params| == 0 && |kwargs| > 0) then
      Failure(BindingError(TooManyArguments))
    else if FirstClash(params[..|args|], kwargs).Some? then
      Failure(BindingError(MultipleValues(FirstClash(params[..|args|], kwargs).value)))
    else if !(kwargs.Keys <= Names(params)) then
      Failure(BindingError(UnexpectedKeyword))
    else if exists i :: 0 <= i < |params| && Supplied(params, args, kwargs, i).None? then
      Failure(BindingError(MissingArgument))
    else
      assert forall i :: 0 <= i < |args| ==> params[i] == params[..|args|][i];
      Success(Bound(params, args, kwargs))
  }

  /** The parameter binding of a call that supplies every parameter. */
  function Bound(params: seq<Param>, args: seq<Value>, kwargs: map<string, Value>): (m: map<string, Value>)
    requires DistinctNames(params)
    requires forall i :: 0 <= i < |params| ==> Supplied(params, args, kwargs, i).Some?
    ensures m.Keys == Names(params)
    ensures forall i :: 0 <= i < |params| ==> Some(m[params[i].name]) == Supplied(params, args, kwargs, i)
  {
    var m := map i | 0 <= i < |params| :: params[i].name := Supplied(params, args, kwargs, i).value;
    assert forall i :: 0 <= i < |params| ==> params[i].name in m && m[params[i].name] == Supplied(params, args, kwargs, i).value;
    m
  }

  /** Two calls that differ only in their first positional argument bind alike: both fail
      with the same error, or both succeed and agree on every parameter but the first. */
  lemma BindIgnoresFirst(params: seq<Param>, a1: seq<Value>, a2: seq<Value>, kwargs: map<string, Value>)
    requires DistinctNames(params)
    requires |a1| == |a2| > 0 && a1[1..] == a2[1..]
    ensures Bind(params, a1, kwargs).Success? <==> Bind(params, a2, kwargs).Success?
    ensures Bind(params, a1, kwargs).Failure? ==> Bind(params, a1, kwargs).error == Bind(params, a2, kwargs).error
    ensures Bind(params, a1, kwargs).Success? ==>
      forall i :: 1 <= i < |params| ==>
        Bind(params, a1, kwargs).value[params[i].name] == Bind(params, a2, kwargs).value[params[i].name]
  {
    forall i | 0 <= i < |params|
      ensures Supplied(params, a1, kwargs, i).Some? <==> Supplied(params, a2, kwargs, i).Some?
      ensures 1 <= i ==> Supplied(params, a1, kwargs, i) == Supplied(params, a2, kwargs, i)
    {
      if 1 <= i < |a1| {
        assert a1[i] == a1[1..][i - 1] == a2[1..][i - 1] == a2[i];
      }
    }
  }
}
