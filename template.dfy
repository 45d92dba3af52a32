/** Key templates: the part of Python's `str.format` a cache key pattern uses. A template is
    literal text (with `{{` and `}}` standing for single braces) and replacement fields
    `{name}` or `{name.attr.attr...}`, rendered against keyword arguments only. Conversions
    (`!r`), format specs (`:x`), indexing (`[0]`) and nested fields are outside the model and
    render as `UnsupportedField`. */
module KeyTemplate {
  import opened Values

  datatype Piece = Char(c: char) | Field(name: string, attrs: seq<string>)

  /** A template as far as it parses, and the syntax error that stopped parsing, if any.
      Python parses lazily, so a field before the error is still looked up first. */
  datatype Parsed = Parsed(pieces: seq<Piece>, failure: Option<FormatFailure>)

  predicate IsBrace(c: char) { c == '{' || c == '}' }

  /** Characters that end or restructure a field name in `str.format`. */
  predicate IsFieldSyntax(c: char) { IsBrace(c) || c == '.' || c == '[' || c == '!' || c == ':' }

  /** The parts of `s` between the occurrences of `sep`. */
  function Split(s: string, sep: char): (parts: seq<string>)
    ensures |parts| > 0
  {
    if s == [] then [""]
    else
      var rest := Split(s[1..], sep);
      if s[0] == sep then [""] + rest else [[s[0]] + rest[0]] + rest[1..]
  }

  /** The parts joined with `sep` between them. */
  function Join(parts: seq<string>, sep: char): string
    requires |parts| > 0
  {
    if |parts| == 1 then parts[0] else parts[0] + [sep] + Join(parts[1..], sep)
  }

  /** Position of the first brace at or after `from`. */
  function BraceFrom(s: string, from: nat): (r: Option<nat>)
    requires from <= |s|
    ensures r.Some? ==> from <= r.value < |s| && IsBrace(s[r.value])
    ensures r.Some? ==> forall k :: from <= k < r.value ==> !IsBrace(s[k])
    ensures r.None? ==> forall k :: from <= k < |s| ==> !IsBrace(s[k])
    decreases |s| - from
  {
    if from == |s| then None
    else if IsBrace(s[from]) then Some(from)
    else BraceFrom(s, from + 1)
  }

  /** The field a brace-free field text names, or None when it uses syntax outside the model. */
  function FieldOf(text: string): Option<Piece>
  {
    if exists k :: 0 <= k < |text| && (text[k] == '[' || text[k] == '!' || text[k] == ':') then None
    else
      var parts := Split(text, '.');
      Some(Field(parts[0], parts[1..]))
  }

  function Prepend(p: Piece, rest: Parsed): Parsed
  {
    Parsed([p] + rest.pieces, rest.failure)
  }

  /** Scan a template left to right as `str.format` does. */
  function Parse(s: string): Parsed
    decreases |s|
  {
    if s == [] then Parsed([], None)
    else if s[0] == '{' then
      if |s| > 1 && s[1] == '{' then Prepend(Char('{'), Parse(s[2..]))
      else
        match BraceFrom(s, 1)
        case None => Parsed([], Some(UnclosedField))
        case Some(j) =>
          if s[j] == '{' then Parsed([], Some(UnsupportedField))
          else
            match FieldOf(s[1..j])
            case None => Parsed([], Some(UnsupportedField))
            case Some(f) => Prepend(f, Parse(s[j + 1..]))
    else if s[0] == '}' then
      if |s| > 1 && s[1] == '}' then Prepend(Char('}'), Parse(s[2..]))
      else Parsed([], Some(UnmatchedClose))
    else Prepend(Char(s[0]), Parse(s[1..]))
  }

  /** A piece that Unparse writes so that Parse reads it back. */
  predicate Writable(p: Piece)
  {
    match p
    case Char(_) => true
    case Field(name, attrs) =>
      (forall k :: 0 <= k < |name| ==> !IsFieldSyntax(name[k]))
      && (forall a :: a in attrs ==> forall k :: 0 <= k < |a| ==> !IsFieldSyntax(a[k]))
  }

  function UnparsePiece(p: Piece): string
  {
    match p
    case Char(c) => if c == '{' then "{{" else if c == '}' then "}}" else [c]
    case Field(name, attrs) => "{" + Join([name] + attrs, '.') + "}"
  }

  /** The template text that denotes the given pieces. */
  function Unparse(pieces: seq<Piece>): string
  {
    if pieces == [] then "" else UnparsePiece(pieces[0]) + Unparse(pieces[1..])
  }

  // ---------------------------------------------------------------- parse/unparse round trip

  lemma {:induction false} UnparseAppend(a: seq<Piece>, b: seq<Piece>)
    ensures Unparse(a + b) == Unparse(a) + Unparse(b)
  {
    if a == [] {
      assert a + b == b;
    } else {
      assert (a + b)[0] == a[0] && (a + b)[1..] == a[1..] + b;
      UnparseAppend(a[1..], b);
    }
  }

  /** Brace-free literal text is its own template. */
  lemma {:induction false} UnparseLiteral(text: string)
    requires forall k :: 0 <= k < |text| ==> !IsBrace(text[k])
    ensures Unparse(Literal(text)) == text
  {
    if text != [] {
      assert Literal(text)[1..] == Literal(text[1..]);
      UnparseLiteral(text[1..]);
      assert [text[0]] + text[1..] == text;
    }
  }

  lemma {:induction false} SplitCons(c: char, s: string, sep: char)
    requires c != sep
    ensures Split([c] + s, sep) == [[c] + Split(s, sep)[0]] + Split(s, sep)[1..]
  {
    assert ([c] + s)[1..] == s;
  }

  lemma {:induction false} SplitPrefix(p: string, s: string, sep: char)
    requires forall k :: 0 <= k < |p| ==> p[k] != sep
    ensures Split(p + s, sep) == [p + Split(s, sep)[0]] + Split(s, sep)[1..]
  {
    if p == [] {
      var parts := Split(s, sep);
      assert p + s == s && p + parts[0] == parts[0];
      assert parts == [parts[0]] + parts[1..];
    } else {
      SplitPrefix(p[1..], s, sep);
      assert p + s == [p[0]] + (p[1..] + s);
      SplitCons(p[0], p[1..] + s, sep);
      assert [p[0]] + (p[1..] + Split(s, sep)[0]) == p + Split(s, sep)[0];
    }
  }

  lemma {:induction false} SplitJoin(parts: seq<string>, sep: char)
    requires |parts| > 0
    requires forall i, k :: 0 <= i < |parts| && 0 <= k < |parts[i]| ==> parts[i][k] != sep
    ensures Split(Join(parts, sep), sep) == parts
  {
    if |parts| == 1 {
      SplitPrefix(parts[0], "", sep);
      assert parts[0] + "" == parts[0];
    } else {
      var rest := Join(parts[1..], sep);
      SplitJoin(parts[1..], sep);
      assert ([sep] + rest)[1..] == rest;
      assert Split([sep] + rest, sep) == [""] + parts[1..];
      assert parts[0] + [sep] + rest == parts[0] + ([sep] + rest);
      SplitPrefix(parts[0], [sep] + rest, sep);
      assert parts[0] + "" == parts[0];
      assert parts == [parts[0]] + parts[1..];
    }
  }

  lemma {:induction false} JoinChars(parts: seq<string>, sep: char, k: nat)
    requires |parts| > 0
    requires k < |Join(parts, sep)|
    ensures Join(parts, sep)[k] == sep || exists i, m :: 0 <= i < |parts| && 0 <= m < |parts[i]| && Join(parts, sep)[k] == parts[i][m]
  {
    if |parts| > 1 {
      var rest := Join(parts[1..], sep);
      if k < |parts[0]| {
        assert Join(parts, sep)[k] == parts[0][k];
      } else if k > |parts[0]| {
        JoinChars(parts[1..], sep, k - |parts[0]| - 1);
        assert Join(parts, sep)[k] == rest[k - |parts[0]| - 1];
        var c := rest[k - |parts[0]| - 1];
        if c != sep {
          var i, m :| 0 <= i < |parts[1..]| && 0 <= m < |parts[1..][i]| && c == parts[1..][i][m];
          assert c == parts[i + 1][m];
        }
      }
    }
  }

  /** The text between the braces of a writable field has no field syntax but the dots. */
  lemma FieldTextChars(name: string, attrs: seq<string>, k: nat)
    requires Writable(Field(name, attrs))
    requires k < |Join([name] + attrs, '.')|
    ensures Join([name] + attrs, '.')[k] == '.' || !IsFieldSyntax(Join([name] + attrs, '.')[k])
  {
    var parts := [name] + attrs;
    JoinChars(parts, '.', k);
    var c := Join(parts, '.')[k];
    if c != '.' {
      var i, m :| 0 <= i < |parts| && 0 <= m < |parts[i]| && c == parts[i][m];
      if i > 0 {
        assert parts[i] in attrs;
      }
    }
  }

  lemma ParsePiece(p: Piece, rest: string)
    requires Writable(p)
    ensures Parse(UnparsePiece(p) + rest) == Prepend(p, Parse(rest))
  {
    match p
    case Char(c) =>
      var s := UnparsePiece(p) + rest;
      if IsBrace(c) {
        assert s[2..] == rest;
      } else {
        assert s[1..] == rest;
      }
    case Field(name, attrs) =>
      ParseField(name, attrs, rest);
  }

  lemma ParseField(name: string, attrs: seq<string>, rest: string)
    requires Writable(Field(name, attrs))
    ensures Parse(UnparsePiece(Field(name, attrs)) + rest) == Prepend(Field(name, attrs), Parse(rest))
  {
    var s := UnparsePiece(Field(name, attrs)) + rest;
    var parts := [name] + attrs;
    var text := Join(parts, '.');
    var j := 1 + |text|;
    assert s == "{" + text + "}" + rest;
    assert s[1..j] == text;
    assert s[j] == '}' && s[j + 1..] == rest;
    FieldTextPlain(name, attrs);
    assert BraceFrom(s, 1) == Some(j);
    FieldTextSplits(name, attrs);
    assert FieldOf(text) == Some(Field(name, attrs));
  }

  /** The text between the braces of a writable field has no brace and none of `[`, `!`, `:`. */
  lemma FieldTextPlain(name: string, attrs: seq<string>)
    requires Writable(Field(name, attrs))
    ensures forall k :: 0 <= k < |Join([name] + attrs, '.')| ==> !IsBrace(Join([name] + attrs, '.')[k])
    ensures forall k :: 0 <= k < |Join([name] + attrs, '.')| ==>
      var c := Join([name] + attrs, '.')[k]; c != '[' && c != '!' && c != ':'
  {
    forall k | 0 <= k < |Join([name] + attrs, '.')|
      ensures Join([name] + attrs, '.')[k] == '.' || !IsFieldSyntax(Join([name] + attrs, '.')[k])
    {
      FieldTextChars(name, attrs, k);
    }
  }

  /** Splitting the text of a writable field at its dots gives back its name and attributes. */
  lemma FieldTextSplits(name: string, attrs: seq<string>)
    requires Writable(Field(name, attrs))
    ensures Split(Join([name] + attrs, '.'), '.') == [name] + attrs
  {
    var parts := [name] + attrs;
    forall i, k | 0 <= i < |parts| && 0 <= k < |parts[i]|
      ensures parts[i][k] != '.'
    {
      if i > 0 {
        assert parts[i] in attrs;
      }
    }
    SplitJoin(parts, '.');
  }

  /** Parsing the text Unparse writes gives back the pieces, with no syntax error. */
  lemma {:induction false} ParseUnparse(pieces: seq<Piece>)
    requires forall i :: 0 <= i < |pieces| ==> Writable(pieces[i])
    ensures Parse(Unparse(pieces)) == Parsed(pieces, None)
  {
    if pieces != [] {
      ParseUnparse(pieces[1..]);
      ParsePiece(pieces[0], Unparse(pieces[1..]));
      assert [pieces[0]] + pieces[1..] == pieces;
    }
  }

  /** Brace-free text is literal text: it parses to one literal piece per character. */
  lemma LiteralParses(text: string)
    requires forall k :: 0 <= k < |text| ==> !IsBrace(text[k])
    ensures Parse(text) == Parsed(Literal(text), None)
  {
    UnparseLiteral(text);
    ParseUnparse(Literal(text));
  }

  lemma UnparseCons(p: Piece, rest: seq<Piece>)
    ensures Unparse([p] + rest) == UnparsePiece(p) + Unparse(rest)
  {
    assert ([p] + rest)[0] == p && ([p] + rest)[1..] == rest;
  }

  /** Joining the parts of a split gives back the text. */
  lemma {:induction false} JoinSplit(s: string, sep: char)
    ensures Join(Split(s, sep), sep) == s
  {
    if s != [] {
      var rest := Split(s[1..], sep);
      JoinSplit(s[1..], sep);
      if s[0] == sep {
        assert ([""] + rest)[1..] == rest;
        assert Join([""] + rest, sep) == "" + [sep] + Join(rest, sep);
        assert s == [sep] + s[1..];
      } else {
        var parts := [[s[0]] + rest[0]] + rest[1..];
        if |rest| == 1 {
          assert Join(parts, sep) == [s[0]] + rest[0];
        } else {
          assert parts[1..] == rest[1..];
          assert Join(rest, sep) == rest[0] + [sep] + Join(rest[1..], sep);
          assert Join(parts, sep) == [s[0]] + rest[0] + [sep] + Join(rest[1..], sep);
        }
        assert s == [s[0]] + s[1..];
      }
    }
  }

  /** One step of the scan: a template that parses without a syntax error starts with a
      piece written as its first n characters, followed by the parse of the rest. */
  lemma ParseStep(s: string) returns (p: Piece, n: nat)
    requires s != [] && Parse(s).failure.None?
    ensures 0 < n <= |s| && Parse(s) == Prepend(p, Parse(s[n..])) && UnparsePiece(p) == s[..n]
  {
    if s[0] == '{' && |s| > 1 && s[1] == '{' {
      p, n := Char('{'), 2;
    } else if s[0] == '{' {
      p, n := FieldStep(s);
    } else if s[0] == '}' {
      p, n := Char('}'), 2;
    } else {
      p, n := Char(s[0]), 1;
    }
  }

  lemma FieldStep(s: string) returns (p: Piece, n: nat)
    requires s != [] && s[0] == '{' && !(|s| > 1 && s[1] == '{') && Parse(s).failure.None?
    ensures 0 < n <= |s| && Parse(s) == Prepend(p, Parse(s[n..])) && UnparsePiece(p) == s[..n]
  {
    var j := BraceFrom(s, 1).value;
    var text := s[1..j];
    var parts := Split(text, '.');
    p, n := Field(parts[0], parts[1..]), j + 1;
    assert [parts[0]] + parts[1..] == parts;
    JoinSplit(text, '.');
    assert s[..n] == "{" + text + "}";
  }

  /** A template that parses without a syntax error is written back as the text it was read
      from: `Parse` loses nothing. */
  lemma {:induction false} UnparseParse(s: string)
    requires Parse(s).failure.None?
    ensures Unparse(Parse(s).pieces) == s
    decreases |s|
  {
    if s != [] {
      var p, n := ParseStep(s);
      UnparseParse(s[n..]);
      UnparseCons(p, Parse(s[n..]).pieces);
      assert s == s[..n] + s[n..];
    }
  }

  // ---------------------------------------------------------------- rendering

  /** Follow `.attr` steps from a value, as `getattr` would. */
  function Follow(v: Value, attrs: seq<string>): (r: Result<Value>)
    ensures attrs == [] ==> r == Success(v)
    ensures attrs != [] && attrs[0] == "" ==> r == Failure(FormatError(EmptyAttribute))
    ensures attrs != [] && attrs[0] != "" && v.Obj? && attrs[0] in v.attrs ==> r == Follow(v.attrs[attrs[0]], attrs[1..])
    ensures attrs != [] && attrs[0] != "" && !(v.Obj? && attrs[0] in v.attrs) ==> r == Failure(AttributeMissing(attrs[0]))
    ensures r.Failure? ==>
      r.error == FormatError(EmptyAttribute) || (r.error.AttributeMissing? && r.error.name in attrs)
  {
    if attrs == [] then Success(v)
    else if attrs[0] == "" then Failure(FormatError(EmptyAttribute))
    else
      match v
      case Obj(fields, _) =>
        if attrs[0] in fields then Follow(fields[attrs[0]], attrs[1..])
        else Failure(AttributeMissing(attrs[0]))
      case _ => Failure(AttributeMissing(attrs[0]))
  }

  /** The value a field denotes: an empty or all-digit name is a positional field, and a key
      template is formatted with keyword arguments only. */
  function Resolve(name: string, attrs: seq<string>, params: map<string, Value>): (r: Result<Value>)
    ensures r.Success? ==> name != "" && !AllDigits(name) && name in params
    ensures name != "" && !AllDigits(name) && name in params ==> r == Follow(params[name], attrs)
  {
    if name == "" || AllDigits(name) then Failure(FormatError(PositionalField))
    else if name !in params then Failure(KeyMissing(name))
    else Follow(params[name], attrs)
  }

  function RenderPiece(p: Piece, params: map<string, Value>): Result<string>
  {
    match p
    case Char(c) => Success([c])
    case Field(name, attrs) =>
      match Resolve(name, attrs, params)
      case Success(v) => Success(Text(v))
      case Failure(e) => Failure(e)
  }

  /** Concatenate the rendered pieces; the first failing field's error wins. */
  function RenderPieces(pieces: seq<Piece>, params: map<string, Value>): Result<string>
  {
    if pieces == [] then Success("")
    else
      match RenderPiece(pieces[0], params)
      case Failure(e) => Failure(e)
      case Success(head) =>
        match RenderPieces(pieces[1..], params)
        case Failure(e) => Failure(e)
        case Success(tail) => Success(head + tail)
  }

  /** A template renders exactly when each of its pieces does; otherwise the error is that of
      the first piece that fails. */
  lemma {:induction false} RenderFailsAtFirst(pieces: seq<Piece>, params: map<string, Value>)
    ensures RenderPieces(pieces, params).Success? <==>
      forall i :: 0 <= i < |pieces| ==> RenderPiece(pieces[i], params).Success?
    ensures RenderPieces(pieces, params).Failure? ==>
      exists i :: 0 <= i < |pieces| && RenderPiece(pieces[i], params) == Failure(RenderPieces(pieces, params).error)
        && forall j :: 0 <= j < i ==> RenderPiece(pieces[j], params).Success?
  {
    if pieces != [] {
      var rest := pieces[1..];
      RenderFailsAtFirst(rest, params);
      assert forall i :: 1 <= i < |pieces| ==> rest[i - 1] == pieces[i];
      if RenderPiece(pieces[0], params).Success? && RenderPieces(rest, params).Failure? {
        var e := RenderPieces(rest, params).error;
        var k :| 0 <= k < |rest| && RenderPiece(rest[k], params) == Failure(e)
          && forall j :: 0 <= j < k ==> RenderPiece(rest[j], params).Success?;
        assert RenderPiece(pieces[k + 1], params) == Failure(e);
        assert forall j :: 0 <= j < k + 1 ==> RenderPiece(pieces[j], params).Success? by {
          forall j | 0 <= j < k + 1
            ensures RenderPiece(pieces[j], params).Success?
          {
            if j > 0 { assert pieces[j] == rest[j - 1]; }
          }
        }
      }
    }
  }

  function Render(t: Parsed, params: map<string, Value>): (r: Result<string>)
    ensures r.Success? <==> RenderPieces(t.pieces, params).Success? && t.failure.None?
    ensures RenderPieces(t.pieces, params).Success? && t.failure.Some? ==> r == Failure(FormatError(t.failure.value))
    ensures RenderPieces(t.pieces, params).Failure? ==> r == RenderPieces(t.pieces, params)
    ensures r.Success? ==> r == RenderPieces(t.pieces, params)
  {
    match RenderPieces(t.pieces, params)
    case Failure(e) => Failure(e)
    case Success(s) => if t.failure.Some? then Failure(FormatError(t.failure.value)) else Success(s)
  }

  /** `pattern.format(**params)`. */
  function Format(pattern: string, params: map<string, Value>): (r: Result<string>)
    ensures r.Success? ==> Parse(pattern).failure.None?
  {
    Render(Parse(pattern), params)
  }

  // ---------------------------------------------------------------- properties of rendering

  /** Formatting the text of a template renders the template itself. */
  lemma FormatWritten(pieces: seq<Piece>, params: map<string, Value>)
    requires forall i :: 0 <= i < |pieces| ==> Writable(pieces[i])
    ensures Format(Unparse(pieces), params) == RenderPieces(pieces, params)
  {
    ParseUnparse(pieces);
  }


  /** Sequencing of two renderings: the first failure wins, else the texts concatenate. */
  function Then(a: Result<string>, b: Result<string>): Result<string>
  {
    match a
    case Failure(e) => Failure(e)
    case Success(x) =>
      match b
      case Failure(e) => Failure(e)
      case Success(y) => Success(x + y)
  }

  lemma RenderCons(p: Piece, rest: seq<Piece>, params: map<string, Value>)
    ensures RenderPieces([p] + rest, params) == Then(RenderPiece(p, params), RenderPieces(rest, params))
  {
    assert ([p] + rest)[0] == p && ([p] + rest)[1..] == rest;
  }

  /** Rendering distributes over concatenation of templates. */
  lemma {:induction false} RenderAppend(a: seq<Piece>, b: seq<Piece>, params: map<string, Value>)
    ensures RenderPieces(a + b, params) == Then(RenderPieces(a, params), RenderPieces(b, params))
  {
    if a == [] {
      assert a + b == b;
      if RenderPieces(b, params).Success? {
        assert "" + RenderPieces(b, params).value == RenderPieces(b, params).value;
      }
    } else {
      assert (a + b)[0] == a[0] && (a + b)[1..] == a[1..] + b;
      RenderAppend(a[1..], b, params);
      match RenderPiece(a[0], params)
      case Failure(e) =>
      case Success(head) =>
        match RenderPieces(a[1..], params)
        case Failure(e) =>
        case Success(x) =>
          match RenderPieces(b, params)
          case Failure(e) =>
          case Success(y) => assert head + (x + y) == (head + x) + y;
    }
  }

  /** Literal text as template pieces. */
  function Literal(text: string): (pieces: seq<Piece>)
    ensures |pieces| == |text| && forall k :: 0 <= k < |text| ==> pieces[k] == Char(text[k])
  {
    seq(|text|, k requires 0 <= k < |text| => Char(text[k]))
  }

  /** Literal text is copied to the key unchanged. */
  lemma {:induction false} RenderLiteral(text: string, params: map<string, Value>)
    ensures RenderPieces(Literal(text), params) == Success(text)
  {
    if text != [] {
      assert Literal(text)[1..] == Literal(text[1..]);
      RenderLiteral(text[1..], params);
      assert [text[0]] + text[1..] == text;
    }
  }

  /** A field `{name}` renders as the text of the value bound to name. */
  lemma RenderField(name: string, params: map<string, Value>)
    requires name != "" && !AllDigits(name) && name in params
    ensures RenderPieces([Field(name, [])], params) == Success(Text(params[name]))
  {
    assert RenderPieces([Field(name, [])][1..], params) == Success("");
    assert Resolve(name, [], params) == Success(params[name]);
    assert Text(params[name]) + "" == Text(params[name]);
  }

  /** The names of the values the template's fields look up. */
  function Referenced(pieces: seq<Piece>): set<string>
  {
    if pieces == [] then {}
    else (if pieces[0].Field? then {pieces[0].name} else {}) + Referenced(pieces[1..])
  }

  /** The key depends on the bound values only through the names the template references. */
  lemma {:induction false} RenderUsesReferencedOnly(pieces: seq<Piece>, m1: map<string, Value>, m2: map<string, Value>)
    requires forall n :: n in Referenced(pieces) ==> (n in m1 <==> n in m2) && (n in m1 ==> m1[n] == m2[n])
    ensures RenderPieces(pieces, m1) == RenderPieces(pieces, m2)
  {
    if pieces != [] {
      RenderUsesReferencedOnly(pieces[1..], m1, m2);
    }
  }
}
