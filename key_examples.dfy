/** The cache keys the repository's tests expect (`tests/test_wrapper.py`), derived from the
    model: each example binds the call, parses the pattern and renders it. A pattern is taken
    apart into segments — literal text followed by one replacement field — so that the
    general lemmas do the parsing and rendering and the concrete text is compared once. */
module KeyExamples {
  import opened Values
  import opened Binding
  import opened KeyTemplate
  import opened CacheKeys

  /** Text with no brace: literal template text that stands for itself. */
  predicate Plain(text: string)
  {
    forall k :: 0 <= k < |text| ==> !IsBrace(text[k])
  }

  /** A name a field can use: not empty, not all digits, with no field syntax in it. */
  predicate FieldName(name: string)
  {
    name != "" && !AllDigits(name) && forall k :: 0 <= k < |name| ==> !IsFieldSyntax(name[k])
  }

  /** Every piece is written so that parsing reads it back. */
  predicate AllWritable(pieces: seq<Piece>)
  {
    forall i :: 0 <= i < |pieces| ==> Writable(pieces[i])
  }

  /** Literal text followed by one replacement field. */
  function Segment(sep: string, name: string, attrs: seq<string>): seq<Piece>
  {
    Literal(sep) + [Field(name, attrs)]
  }

  /** The template text of a segment: `<sep>{name.attr…}`. */
  function SegmentText(sep: string, name: string, attrs: seq<string>): string
  {
    sep + "{" + Join([name] + attrs, '.') + "}"
  }

  // ---------------------------------------------------------------- general steps

  /** A lower-case letter or a digit. */
  predicate NameChar(c: char)
  {
    'a' <= c <= 'z' || '0' <= c <= '9'
  }

  /** A four-character name of lower-case letters and digits, starting with a letter. */
  lemma ShortName(name: string, c0: char, c1: char, c2: char, c3: char)
    requires name == [c0, c1, c2, c3]
    requires 'a' <= c0 <= 'z' && NameChar(c1) && NameChar(c2) && NameChar(c3)
    ensures FieldName(name)
  {
    assert !IsDigit(name[0]);
    assert name[1] == c1 && name[2] == c2 && name[3] == c3;
  }

  lemma FieldWritable(name: string, attrs: seq<string>)
    requires FieldName(name) && forall i :: 0 <= i < |attrs| ==> FieldName(attrs[i])
    ensures Writable(Field(name, attrs))
  {
    forall a | a in attrs
      ensures forall k :: 0 <= k < |a| ==> !IsFieldSyntax(a[k])
    {
      var i :| 0 <= i < |attrs| && attrs[i] == a;
    }
  }

  /** The dotted text of a field with no attribute is its name. */
  lemma JoinName(name: string)
    ensures Join([name] + [], '.') == name
  {
    assert [name] + [] == [name];
  }

  /** The dotted text of a field with one attribute. */
  lemma JoinAttribute(name: string, attr: string)
    ensures Join([name] + [attr], '.') == name + "." + attr
  {
    assert ([name] + [attr])[1..] == [attr];
  }

  /** A segment is written so that parsing reads it back. */
  lemma SegmentWritable(sep: string, name: string, attrs: seq<string>)
    requires FieldName(name) && forall i :: 0 <= i < |attrs| ==> FieldName(attrs[i])
    ensures AllWritable(Segment(sep, name, attrs))
  {
    FieldWritable(name, attrs);
    assert Segment(sep, name, attrs)[|sep|] == Field(name, attrs);
  }

  /** The text of a segment is `SegmentText`. */
  lemma SegmentUnparsed(sep: string, name: string, attrs: seq<string>)
    requires Plain(sep)
    ensures Unparse(Segment(sep, name, attrs)) == SegmentText(sep, name, attrs)
  {
    var field := [Field(name, attrs)];
    UnparseLiteral(sep);
    UnparseAppend(Literal(sep), field);
    assert field[1..] == [];
  }

  /** Both of the above. */
  lemma SegmentWritten(sep: string, name: string, attrs: seq<string>)
    requires Plain(sep) && FieldName(name) && forall i :: 0 <= i < |attrs| ==> FieldName(attrs[i])
    ensures AllWritable(Segment(sep, name, attrs))
    ensures Unparse(Segment(sep, name, attrs)) == SegmentText(sep, name, attrs)
  {
    SegmentWritable(sep, name, attrs);
    SegmentUnparsed(sep, name, attrs);
  }

  /** Written pieces side by side are written, and their text is the texts side by side. */
  lemma WrittenAppend(a: seq<Piece>, b: seq<Piece>, ta: string, tb: string)
    requires AllWritable(a) && AllWritable(b) && Unparse(a) == ta && Unparse(b) == tb
    ensures AllWritable(a + b) && Unparse(a + b) == ta + tb
  {
    UnparseAppend(a, b);
  }

  /** A segment renders as its literal text followed by what its field renders. */
  lemma SegmentRendered(sep: string, name: string, attrs: seq<string>, params: map<string, Value>, text: string)
    requires RenderPieces([Field(name, attrs)], params) == Success(text)
    ensures RenderPieces(Segment(sep, name, attrs), params) == Success(sep + text)
  {
    RenderLiteral(sep, params);
    RenderAppend(Literal(sep), [Field(name, attrs)], params);
  }

  /** Rendered pieces side by side render as the texts side by side. */
  lemma RenderedAppend(a: seq<Piece>, b: seq<Piece>, params: map<string, Value>, ta: string, tb: string)
    requires RenderPieces(a, params) == Success(ta) && RenderPieces(b, params) == Success(tb)
    ensures RenderPieces(a + b, params) == Success(ta + tb)
  {
    RenderAppend(a, b, params);
  }

  /** A field `{name.attr}` renders as the text of the attribute of the object bound to name. */
  lemma RenderAttribute(name: string, attr: string, params: map<string, Value>)
    requires FieldName(name) && attr != ""
    requires name in params && params[name].Obj? && attr in params[name].attrs
    ensures RenderPieces([Field(name, [attr])], params) == Success(Text(params[name].attrs[attr]))
  {
    var v := params[name].attrs[attr];
    assert [attr][1..] == [];
    assert Follow(params[name], [attr]) == Follow(v, []) == Success(v);
    assert RenderPiece(Field(name, [attr]), params) == Success(Text(v));
    assert [Field(name, [attr])][1..] == [];
    assert Text(v) + "" == Text(v);
  }

  /** The pattern `<prefix>{a}_{b}_{c}` parses into its three segments. */
  lemma ThreeFieldsParsed(prefix: string, a: string, b: string, c: string)
    requires Plain(prefix) && FieldName(a) && FieldName(b) && FieldName(c)
    ensures Parse(SegmentText(prefix, a, []) + SegmentText("_", b, []) + SegmentText("_", c, []))
         == Parsed(Segment(prefix, a, []) + Segment("_", b, []) + Segment("_", c, []), None)
  {
    var s1, s2, s3 := Segment(prefix, a, []), Segment("_", b, []), Segment("_", c, []);
    var t1, t2, t3 := SegmentText(prefix, a, []), SegmentText("_", b, []), SegmentText("_", c, []);
    SegmentWritten(prefix, a, []);
    SegmentWritten("_", b, []);
    SegmentWritten("_", c, []);
    WrittenAppend(s1, s2, t1, t2);
    WrittenAppend(s1 + s2, s3, t1 + t2, t3);
    ParseUnparse(s1 + s2 + s3);
  }

  /** With a, b and c bound, `<prefix>{a}_{b}_{c}` renders their texts in that order. */
  lemma ThreeFieldsRendered(prefix: string, a: string, b: string, c: string, bound: map<string, Value>)
    requires FieldName(a) && FieldName(b) && FieldName(c)
    requires a in bound && b in bound && c in bound
    ensures RenderPieces(Segment(prefix, a, []) + Segment("_", b, []) + Segment("_", c, []), bound)
         == Success(prefix + Text(bound[a]) + ("_" + Text(bound[b])) + ("_" + Text(bound[c])))
  {
    var s1, s2, s3 := Segment(prefix, a, []), Segment("_", b, []), Segment("_", c, []);
    RenderField(a, bound);
    RenderField(b, bound);
    RenderField(c, bound);
    SegmentRendered(prefix, a, [], bound, Text(bound[a]));
    SegmentRendered("_", b, [], bound, Text(bound[b]));
    SegmentRendered("_", c, [], bound, Text(bound[c]));
    RenderedAppend(s1, s2, bound, prefix + Text(bound[a]), "_" + Text(bound[b]));
    RenderedAppend(s1 + s2, s3, bound, prefix + Text(bound[a]) + ("_" + Text(bound[b])), "_" + Text(bound[c]));
  }

  /** The pattern `<prefix>{a.attr}_{b.attr}` parses into its two segments. */
  lemma TwoAttributesParsed(prefix: string, a: string, b: string, attr: string)
    requires Plain(prefix) && FieldName(a) && FieldName(b) && FieldName(attr)
    ensures Parse(SegmentText(prefix, a, [attr]) + SegmentText("_", b, [attr]))
         == Parsed(Segment(prefix, a, [attr]) + Segment("_", b, [attr]), None)
  {
    var s1, s2 := Segment(prefix, a, [attr]), Segment("_", b, [attr]);
    SegmentWritten(prefix, a, [attr]);
    SegmentWritten("_", b, [attr]);
    WrittenAppend(s1, s2, SegmentText(prefix, a, [attr]), SegmentText("_", b, [attr]));
    ParseUnparse(s1 + s2);
  }

  /** With objects bound to a and b, `<prefix>{a.attr}_{b.attr}` renders their attributes. */
  lemma TwoAttributesRendered(prefix: string, a: string, b: string, attr: string, bound: map<string, Value>)
    requires FieldName(a) && FieldName(b) && attr != ""
    requires a in bound && bound[a].Obj? && attr in bound[a].attrs
    requires b in bound && bound[b].Obj? && attr in bound[b].attrs
    ensures RenderPieces(Segment(prefix, a, [attr]) + Segment("_", b, [attr]), bound)
         == Success(prefix + Text(bound[a].attrs[attr]) + ("_" + Text(bound[b].attrs[attr])))
  {
    RenderAttribute(a, attr, bound);
    RenderAttribute(b, attr, bound);
    SegmentRendered(prefix, a, [attr], bound, Text(bound[a].attrs[attr]));
    SegmentRendered("_", b, [attr], bound, Text(bound[b].attrs[attr]));
    RenderedAppend(Segment(prefix, a, [attr]), Segment("_", b, [attr]), bound,
                   prefix + Text(bound[a].attrs[attr]), "_" + Text(bound[b].attrs[attr]));
  }

  /** A key assembled from its parts: the binding, the parsed pattern and its rendering. */
  lemma KeyFromParts(params: seq<Param>, pattern: string, receiver: Value, args: seq<Value>,
                     bound: map<string, Value>, pieces: seq<Piece>, key: string)
    requires DistinctNames(params)
    requires Bind(params, Positional(Function, receiver, args), map[]) == Success(bound)
    requires Parse(pattern) == Parsed(pieces, None)
    requires RenderPieces(pieces, bound) == Success(key)
    ensures KeyOf(Function, params, pattern, None, receiver, args, map[]) == Success(key)
  {
  }

  // ---------------------------------------------------------------- the examples

  /** `def f(arg1, arg2=3, arg3=None)` under `"test_{arg1}_{arg2}_{arg3}"`, called as `f(1)`:
      the omitted arguments take their defaults, and the None default renders as `None`. */
  lemma KeyWithDefaults(params: seq<Param>, pattern: string, args: seq<Value>)
    requires params == [Param("arg1", None), Param("arg2", Some(Int(3))), Param("arg3", Some(NoneValue))]
    requires pattern == "test_{arg1}_{arg2}_{arg3}" && args == [Int(1)]
    ensures DistinctNames(params)
    ensures KeyOf(Function, params, pattern, None, NoneValue, args, map[]) == Success("test_1_3_None")
  {
    var bound := DefaultsBound(params, args);
    FunctionPatternText(pattern);
    DefaultsText("test_1_3_None");
    ArgsKey("test_", bound);
    var pieces := ArgsTemplate(pattern, "test_", "test_1_3_None", bound);
    KeyFromParts(params, pattern, NoneValue, args, bound, pieces, "test_1_3_None");
  }

  /** The same signature as an instance method, `def m(self, arg1, arg2=3, arg3=None)`, under
      `"test_with_args_{arg1}_{arg2}_{arg3}"`, called as `instance.m(1)`, so that the wrapper's
      receiver is the instance: the receiver fills `self`, which the key does not show. */
  lemma KeyOfBoundWrapper(params: seq<Param>, pattern: string, instance: Value, args: seq<Value>)
    requires params == [Param("self", None), Param("arg1", None), Param("arg2", Some(Int(3))), Param("arg3", Some(NoneValue))]
    requires pattern == "test_with_args_{arg1}_{arg2}_{arg3}" && args == [Int(1)]
    requires instance.Obj?
    ensures DistinctNames(params)
    ensures KeyOf(Function, params, pattern, None, instance, args, map[]) == Success("test_with_args_1_3_None")
  {
    var bound := MethodDefaultsBound(params, instance, args);
    MethodText(pattern, "test_with_args_1_3_None");
    ArgsKey("test_with_args_", bound);
    var pieces := ArgsTemplate(pattern, "test_with_args_", "test_with_args_1_3_None", bound);
    KeyFromParts(params, pattern, instance, args, bound, pieces, "test_with_args_1_3_None");
  }

  /** `def f(obj1, obj2)` under `"test_obj_param_{obj1.name}_{obj2.name}"`: the fields follow
      the `name` attribute of each argument. */
  lemma KeyWithAttributes(params: seq<Param>, pattern: string, args: seq<Value>)
    requires params == [Param("obj1", None), Param("obj2", None)]
    requires pattern == "test_obj_param_{obj1.name}_{obj2.name}"
    requires |args| == 2 && args[0].Obj? && args[1].Obj?
    requires args[0].attrs == map["name" := Str("name1")] && args[1].attrs == map["name" := Str("name2")]
    ensures DistinctNames(params)
    ensures KeyOf(Function, params, pattern, None, NoneValue, args, map[]) == Success("test_obj_param_name1_name2")
  {
    var bound := ObjectsBound(params, args);
    ObjectsText(pattern, "test_obj_param_name1_name2");
    var pieces := ObjectsTemplate(pattern, "test_obj_param_", "test_obj_param_name1_name2", bound);
    KeyFromParts(params, pattern, NoneValue, args, bound, pieces, "test_obj_param_name1_name2");
  }

  /** `def f(arg1, arg2=3, arg3=None)` under `"test_{arg1}_{arg2}_{arg3}"`, called as
      `f(1, 2, 3)`: every parameter takes its positional argument. */
  lemma KeyWithArguments(params: seq<Param>, pattern: string, args: seq<Value>)
    requires params == [Param("arg1", None), Param("arg2", Some(Int(3))), Param("arg3", Some(NoneValue))]
    requires pattern == "test_{arg1}_{arg2}_{arg3}" && args == [Int(1), Int(2), Int(3)]
    ensures DistinctNames(params)
    ensures KeyOf(Function, params, pattern, None, NoneValue, args, map[]) == Success("test_1_2_3")
  {
    var bound := ArgumentsBound(params, args);
    FunctionPatternText(pattern);
    ArgumentsText("test_1_2_3");
    ArgumentsKey("test_", "test_1_2_3", bound);
    var pieces := ArgsTemplate(pattern, "test_", "test_1_2_3", bound);
    KeyFromParts(params, pattern, NoneValue, args, bound, pieces, "test_1_2_3");
  }

  /** A brace-free pattern is the key of every call whose arguments bind. */
  lemma LiteralKey(kind: Kind, params: seq<Param>, pattern: string, receiver: Value, args: seq<Value>, kwargs: map<string, Value>)
    requires DistinctNames(params) && Plain(pattern) && !kind.Other?
    requires Bind(params, Positional(kind, receiver, args), kwargs).Success?
    ensures KeyOf(kind, params, pattern, None, receiver, args, kwargs) == Success(pattern)
  {
    var bound := Bind(params, Positional(kind, receiver, args), kwargs).value;
    LiteralParses(pattern);
    RenderLiteral(pattern, bound);
  }

  /** `def f()` under `"test"`, called as `f()`. */
  lemma KeyWithoutArguments(pattern: string)
    requires pattern == "test"
    ensures KeyOf(Function, [], pattern, None, NoneValue, [], map[]) == Success("test")
  {
    assert Positional(Function, NoneValue, []) == [];
    NothingBound();
    LiteralKey(Function, [], pattern, NoneValue, [], map[]);
  }

  /** A call without arguments binds to a function without parameters. */
  lemma NothingBound()
    ensures Bind([], [], map[]).Success?
  {
    var kwargs: map<string, Value> := map[];
    assert kwargs.Keys <= Names([]);
  }

  /** An instance method `def m(self)` under `"test_without_args"`, called as `instance.m()`:
      the receiver fills `self`. */
  lemma KeyOfBoundWrapperWithoutArguments(params: seq<Param>, pattern: string, instance: Value)
    requires params == [Param("self", None)] && pattern == "test_without_args" && instance.Obj?
    ensures DistinctNames(params)
    ensures KeyOf(Function, params, pattern, None, instance, [], map[]) == Success("test_without_args")
  {
    var positional := Positional(Function, instance, []);
    assert positional == [instance];
    assert Supplied(params, positional, map[], 0).Some?;
    assert Bind(params, positional, map[]).Success?;
    LiteralKey(Function, params, pattern, instance, [], map[]);
  }

  // ---------------------------------------------------------------- the examples' templates

  /** `<prefix>{arg1}_{arg2}_{arg3}` parses, and renders the three bound values after the
      prefix, joined by `_`. */
  lemma ArgsTemplate(pattern: string, prefix: string, key: string, bound: map<string, Value>) returns (pieces: seq<Piece>)
    requires Plain(prefix) && pattern == prefix + "{arg1}_{arg2}_{arg3}"
    requires "arg1" in bound && "arg2" in bound && "arg3" in bound
    requires key == prefix + Text(bound["arg1"]) + ("_" + Text(bound["arg2"])) + ("_" + Text(bound["arg3"]))
    ensures Parse(pattern) == Parsed(pieces, None)
    ensures RenderPieces(pieces, bound) == Success(key)
  {
    pieces := Segment(prefix, "arg1", []) + Segment("_", "arg2", []) + Segment("_", "arg3", []);
    ExampleNames();
    ArgsPattern(prefix);
    ThreeFieldsParsed(prefix, "arg1", "arg2", "arg3");
    ThreeFieldsRendered(prefix, "arg1", "arg2", "arg3", bound);
  }

  /** `<prefix>{obj1.name}_{obj2.name}` parses, and renders the names `name1` and `name2` as
      `<prefix>name1_name2`. */
  lemma ObjectsTemplate(pattern: string, prefix: string, key: string, bound: map<string, Value>) returns (pieces: seq<Piece>)
    requires Plain(prefix) && pattern == prefix + "{obj1.name}_{obj2.name}" && key == prefix + "name1_name2"
    requires "obj1" in bound && bound["obj1"].Obj? && bound["obj1"].attrs == map["name" := Str("name1")]
    requires "obj2" in bound && bound["obj2"].Obj? && bound["obj2"].attrs == map["name" := Str("name2")]
    ensures Parse(pattern) == Parsed(pieces, None)
    ensures RenderPieces(pieces, bound) == Success(key)
  {
    pieces := Segment(prefix, "obj1", ["name"]) + Segment("_", "obj2", ["name"]);
    ExampleNames();
    ObjectsPattern(prefix);
    TwoAttributesParsed(prefix, "obj1", "obj2", "name");
    TwoAttributesRendered(prefix, "obj1", "obj2", "name", bound);
    ObjectsKey(prefix, bound);
  }

  // ---------------------------------------------------------------- the examples' text

  lemma ExampleNames()
    ensures FieldName("arg1") && FieldName("arg2") && FieldName("arg3")
    ensures FieldName("obj1") && FieldName("obj2") && FieldName("name")
  {
    ShortName("arg1", 'a', 'r', 'g', '1');
    ShortName("arg2", 'a', 'r', 'g', '2');
    ShortName("arg3", 'a', 'r', 'g', '3');
    ShortName("obj1", 'o', 'b', 'j', '1');
    ShortName("obj2", 'o', 'b', 'j', '2');
    ShortName("name", 'n', 'a', 'm', 'e');
  }

  lemma DefaultsText(key: string)
    requires key == "test_1_3_None"
    ensures key == "test_" + "1_3_None"
  {
  }

  lemma FunctionPatternText(pattern: string)
    requires pattern == "test_{arg1}_{arg2}_{arg3}"
    ensures Plain("test_") && pattern == "test_" + "{arg1}_{arg2}_{arg3}"
  {
  }

  lemma ArgumentsText(key: string)
    requires key == "test_1_2_3"
    ensures key == "test_" + "1_2_3"
  {
  }

  lemma MethodText(pattern: string, key: string)
    requires pattern == "test_with_args_{arg1}_{arg2}_{arg3}" && key == "test_with_args_1_3_None"
    ensures Plain("test_with_args_")
    ensures pattern == "test_with_args_" + "{arg1}_{arg2}_{arg3}" && key == "test_with_args_" + "1_3_None"
  {
    MethodPrefix();
    MethodPatternText(pattern);
  }

  lemma MethodPrefix()
    ensures Plain("test_with_args_")
  {
  }

  lemma MethodPatternText(pattern: string)
    requires pattern == "test_with_args_{arg1}_{arg2}_{arg3}"
    ensures pattern == "test_with_args_" + "{arg1}_{arg2}_{arg3}"
  {
  }

  lemma ObjectsText(pattern: string, key: string)
    requires pattern == "test_obj_param_{obj1.name}_{obj2.name}" && key == "test_obj_param_name1_name2"
    ensures Plain("test_obj_param_")
    ensures pattern == "test_obj_param_" + "{obj1.name}_{obj2.name}" && key == "test_obj_param_" + "name1_name2"
  {
    ObjectsPrefix();
    ObjectsPatternText(pattern);
  }

  lemma ObjectsPrefix()
    ensures Plain("test_obj_param_")
  {
  }

  lemma ObjectsPatternText(pattern: string)
    requires pattern == "test_obj_param_{obj1.name}_{obj2.name}"
    ensures pattern == "test_obj_param_" + "{obj1.name}_{obj2.name}"
  {
  }

  lemma ArgsPattern(prefix: string)
    ensures prefix + "{arg1}_{arg2}_{arg3}"
         == SegmentText(prefix, "arg1", []) + SegmentText("_", "arg2", []) + SegmentText("_", "arg3", [])
  {
    JoinName("arg1");
    JoinName("arg2");
    JoinName("arg3");
  }

  lemma ObjectsPattern(prefix: string)
    ensures prefix + "{obj1.name}_{obj2.name}"
         == SegmentText(prefix, "obj1", ["name"]) + SegmentText("_", "obj2", ["name"])
  {
    JoinAttribute("obj1", "name");
    JoinAttribute("obj2", "name");
  }

  lemma ArgsKey(prefix: string, bound: map<string, Value>)
    requires "arg1" in bound && "arg2" in bound && "arg3" in bound
    requires bound["arg1"] == Int(1) && bound["arg2"] == Int(3) && bound["arg3"] == NoneValue
    ensures prefix + "1_3_None" == prefix + Text(bound["arg1"]) + ("_" + Text(bound["arg2"])) + ("_" + Text(bound["arg3"]))
  {
    assert Text(Int(1)) == "1" && Text(Int(3)) == "3" && Text(NoneValue) == "None";
    assert "1_3_None" == "1" + ("_" + "3") + ("_" + "None");
  }

  lemma ArgumentsKey(prefix: string, key: string, bound: map<string, Value>)
    requires key == prefix + "1_2_3"
    requires "arg1" in bound && "arg2" in bound && "arg3" in bound
    requires bound["arg1"] == Int(1) && bound["arg2"] == Int(2) && bound["arg3"] == Int(3)
    ensures key == prefix + Text(bound["arg1"]) + ("_" + Text(bound["arg2"])) + ("_" + Text(bound["arg3"]))
  {
    assert Text(Int(1)) == "1" && Text(Int(2)) == "2" && Text(Int(3)) == "3";
    assert "1_2_3" == "1" + ("_" + "2") + ("_" + "3");
  }

  lemma ObjectsKey(prefix: string, bound: map<string, Value>)
    requires "obj1" in bound && bound["obj1"].Obj? && bound["obj1"].attrs == map["name" := Str("name1")]
    requires "obj2" in bound && bound["obj2"].Obj? && bound["obj2"].attrs == map["name" := Str("name2")]
    ensures prefix + "name1_name2" == prefix + Text(bound["obj1"].attrs["name"]) + ("_" + Text(bound["obj2"].attrs["name"]))
  {
    assert "name1_name2" == "name1" + ("_" + "name2");
  }

  // ---------------------------------------------------------------- the examples' bindings

  lemma DefaultsBound(params: seq<Param>, args: seq<Value>) returns (bound: map<string, Value>)
    requires params == [Param("arg1", None), Param("arg2", Some(Int(3))), Param("arg3", Some(NoneValue))]
    requires args == [Int(1)]
    ensures DistinctNames(params) && Bind(params, args, map[]) == Success(bound)
    ensures "arg1" in bound && "arg2" in bound && "arg3" in bound
    ensures bound["arg1"] == Int(1) && bound["arg2"] == Int(3) && bound["arg3"] == NoneValue
  {
    assert "arg1"[3] != "arg2"[3] && "arg1"[3] != "arg3"[3] && "arg2"[3] != "arg3"[3];
    forall i | 0 <= i < 3
      ensures Supplied(params, args, map[], i).Some?
    {
      if i == 0 {} else if i == 1 {} else {}
    }
    bound := Bind(params, args, map[]).value;
    assert params[0].name == "arg1" && params[1].name == "arg2" && params[2].name == "arg3";
    assert Some(bound[params[0].name]) == Supplied(params, args, map[], 0);
    assert Some(bound[params[1].name]) == Supplied(params, args, map[], 1);
    assert Some(bound[params[2].name]) == Supplied(params, args, map[], 2);
  }

  lemma ArgumentsBound(params: seq<Param>, args: seq<Value>) returns (bound: map<string, Value>)
    requires params == [Param("arg1", None), Param("arg2", Some(Int(3))), Param("arg3", Some(NoneValue))]
    requires args == [Int(1), Int(2), Int(3)]
    ensures DistinctNames(params) && Bind(params, args, map[]) == Success(bound)
    ensures "arg1" in bound && "arg2" in bound && "arg3" in bound
    ensures bound["arg1"] == Int(1) && bound["arg2"] == Int(2) && bound["arg3"] == Int(3)
  {
    assert "arg1"[3] != "arg2"[3] && "arg1"[3] != "arg3"[3] && "arg2"[3] != "arg3"[3];
    bound := Bind(params, args, map[]).value;
    assert params[0].name == "arg1" && params[1].name == "arg2" && params[2].name == "arg3";
    assert Some(bound[params[0].name]) == Supplied(params, args, map[], 0);
    assert Some(bound[params[1].name]) == Supplied(params, args, map[], 1);
    assert Some(bound[params[2].name]) == Supplied(params, args, map[], 2);
  }

  lemma MethodDefaultsBound(params: seq<Param>, receiver: Value, args: seq<Value>) returns (bound: map<string, Value>)
    requires params == [Param("self", None), Param("arg1", None), Param("arg2", Some(Int(3))), Param("arg3", Some(NoneValue))]
    requires Truthy(receiver) && args == [Int(1)]
    ensures DistinctNames(params) && Bind(params, Positional(Function, receiver, args), map[]) == Success(bound)
    ensures "self" in bound && "arg1" in bound && "arg2" in bound && "arg3" in bound
    ensures bound["self"] == receiver
    ensures bound["arg1"] == Int(1) && bound["arg2"] == Int(3) && bound["arg3"] == NoneValue
  {
    var positional := Positional(Function, receiver, args);
    assert positional == [receiver, Int(1)];
    assert "self"[0] != "arg1"[0];
    assert "arg1"[3] != "arg2"[3] && "arg1"[3] != "arg3"[3] && "arg2"[3] != "arg3"[3];
    forall i | 0 <= i < 4
      ensures Supplied(params, positional, map[], i).Some?
    {
      if i == 0 {} else if i == 1 {} else if i == 2 {} else {}
    }
    bound := Bind(params, positional, map[]).value;
    assert params[0].name == "self" && params[1].name == "arg1" && params[2].name == "arg2" && params[3].name == "arg3";
    assert Some(bound[params[0].name]) == Supplied(params, positional, map[], 0);
    assert Some(bound[params[1].name]) == Supplied(params, positional, map[], 1);
    assert Some(bound[params[2].name]) == Supplied(params, positional, map[], 2);
    assert Some(bound[params[3].name]) == Supplied(params, positional, map[], 3);
  }

  lemma ObjectsBound(params: seq<Param>, args: seq<Value>) returns (bound: map<string, Value>)
    requires params == [Param("obj1", None), Param("obj2", None)]
    requires |args| == 2
    ensures DistinctNames(params) && Bind(params, args, map[]) == Success(bound)
    ensures "obj1" in bound && "obj2" in bound && bound["obj1"] == args[0] && bound["obj2"] == args[1]
  {
    assert "obj1"[3] != "obj2"[3];
    bound := Bind(params, args, map[]).value;
    assert params[0].name == "obj1" && params[1].name == "obj2";
    assert Some(bound[params[0].name]) == Supplied(params, args, map[], 0);
    assert Some(bound[params[1].name]) == Supplied(params, args, map[], 1);
  }
}
