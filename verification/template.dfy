/** Prompt templates: LangChain's `PromptTemplate` with an f-string template, formatted by
    Python's `string.Formatter` with keyword fields only. Plain `{name}` fields are modelled;
    a name holding `!`, `:`, `.` or `[` is taken whole, without a conversion, format spec,
    attribute or index lookup. */
module Template {
  import opened Wrappers
  import opened Strings

  /** A `PromptTemplate`: its declared input variables and its template text. */
  datatype PromptTemplate = PromptTemplate(inputVariables: seq<string>, template: string)

  /** Neither brace occurs. */
  predicate BraceFree(s: string) {
    '{' !in s && '}' !in s
  }

  /** The position of the first brace of either kind, or -1 when there is none. */
  function FirstBrace(s: string): (i: int)
    ensures i == -1 <==> BraceFree(s)
    ensures i >= 0 ==> i < |s| && (s[i] == '{' || s[i] == '}') && BraceFree(s[..i])
    decreases |s|
  {
    if s == "" then -1
    else if s[0] == '{' || s[0] == '}' then 0
    else
      var j := FirstBrace(s[1..]);
      assert BraceFree(s[1..]) ==> BraceFree(s) by {
        assert s == [s[0]] + s[1..];
      }
      assert !BraceFree(s[1..]) ==> !BraceFree(s) by {
        assert forall c :: c in s[1..] ==> c in s;
      }
      if j < 0 then -1
      else
        assert s[..j + 1] == [s[0]] + s[1..][..j];
        j + 1
  }

  /** A field name the formatter reads as a position: empty (automatic numbering) or all
      decimal digits. With no positional arguments, looking one up raises `IndexError`. */
  predicate Positional(name: string) {
    forall i :: 0 <= i < |name| ==> '0' <= name[i] <= '9'
  }

  const NoPositional: string := "tuple index out of range"

  function Prepend(p: string, r: Result<string>): (q: Result<string>)
    ensures q.Ok? <==> r.Ok?
  {
    match r
    case Ok(v) => Ok(p + v)
    case Err(e) => Err(e)
  }

  /** `template.format(**fields)`: `{{` and `}}` stand for single braces, `{name}` is replaced
      by `fields[name]`; a missing name raises `KeyError`, `{}` and `{0}` ask for a positional
      argument that is never given (`IndexError`), and an unpaired brace or a `{` inside a
      field name raises `ValueError`. */
  function Format(t: string, fields: map<string, string>): (r: Result<string>)
    ensures BraceFree(t) ==> r == Ok(t)
    decreases |t|
  {
    if t == "" then Ok("")
    else if t[0] == '{' && |t| > 1 && t[1] == '{' then
      Prepend("{", Format(t[2..], fields))
    else if t[0] == '{' && |t| == 1 then
      Err(ValueError("Single '{' encountered in format string"))
    else if t[0] == '{' then
      var close := FirstBrace(t[1..]);
      if close < 0 then Err(ValueError("expected '}' before end of string"))
      else if t[1 + close] == '{' then Err(ValueError("unexpected '{' in field name"))
      else
        var name := t[1..1 + close];
        if Positional(name) then Err(IndexError(NoPositional))
        else if name !in fields then Err(KeyError(name))
        else Prepend(fields[name], Format(t[close + 2..], fields))
    else if t[0] == '}' && |t| > 1 && t[1] == '}' then
      Prepend("}", Format(t[2..], fields))
    else if t[0] == '}' then
      Err(ValueError("Single '}' encountered in format string"))
    else
      assert BraceFree(t) ==> BraceFree(t[1..]) by {
        assert forall c :: c in t[1..] ==> c in t;
      }
      var r := Format(t[1..], fields);
      assert BraceFree(t) ==> [t[0]] + t[1..] == t;
      Prepend([t[0]], r)
  }

  /** The first `}` in `name + "}" + b` closes the placeholder when `name` holds no brace. */
  lemma {:induction false} ClosingBrace(name: string, b: string)
    requires BraceFree(name)
    ensures FirstBrace(name + "}" + b) == |name|
    decreases |name|
  {
    var s := name + "}" + b;
    if name == "" {
      assert s[0] == '}';
    } else {
      assert name[0] in name;
      assert s[1..] == name[1..] + "}" + b;
      assert BraceFree(name[1..]) by {
        assert forall c :: c in name[1..] ==> c in name;
      }
      ClosingBrace(name[1..], b);
    }
  }

  /** A character other than a brace is copied. */
  lemma {:induction false} FormatPlainChar(c: char, rest: string, fields: map<string, string>)
    requires c != '{' && c != '}'
    ensures Format([c] + rest, fields) == Prepend([c], Format(rest, fields))
  {
    assert ([c] + rest)[1..] == rest;
  }

  /** A template opening with `{name}` renders the field, then the rest. */
  lemma {:induction false} FormatLeadingPlaceholder(name: string, b: string, fields: map<string, string>)
    requires BraceFree(name) && !Positional(name)
    ensures var t := "{" + name + "}" + b;
      Format(t, fields) ==
        if name in fields then Prepend(fields[name], Format(b, fields)) else Err(KeyError(name))
  {
    var t := "{" + name + "}" + b;
    var inner := name + "}" + b;
    assert t[1..] == inner;
    ClosingBrace(name, b);
    FormatOpening(t, fields, |name|);
    assert t[1..1 + |name|] == name;
    assert t[|name| + 2..] == b;
  }

  /** One step of `Format` at a single opening brace whose closing brace is `close` characters on. */
  lemma {:induction false} FormatOpening(t: string, fields: map<string, string>, close: nat)
    requires |t| > 1 && t[0] == '{' && t[1] != '{'
    requires FirstBrace(t[1..]) == close && t[1 + close] == '}'
    ensures close + 2 <= |t|
    ensures Format(t, fields) ==
      if Positional(t[1..1 + close]) then Err(IndexError(NoPositional))
      else if t[1..1 + close] !in fields then Err(KeyError(t[1..1 + close]))
      else Prepend(fields[t[1..1 + close]], Format(t[close + 2..], fields))
  {
  }

  lemma {:induction false} FormatPlaceholderAlone(name: string, b: string, fields: map<string, string>)
    requires BraceFree(name) && BraceFree(b)
    requires !Positional(name) && name in fields
    ensures Format("{" + name + "}" + b, fields) == Ok(fields[name] + b)
  {
    FormatLeadingPlaceholder(name, b, fields);
    assert Format(b, fields) == Ok(b);
  }

  /** Brace-free text in front of a template is copied verbatim. */
  lemma {:induction false} FormatLiteralPrefix(a: string, rest: string, fields: map<string, string>)
    requires BraceFree(a)
    ensures Format(a + rest, fields) == Prepend(a, Format(rest, fields))
    decreases |a|
  {
    if a == "" {
      assert a + rest == rest;
      PrependNothing(Format(rest, fields));
    } else {
      var tail := a[1..] + rest;
      assert a + rest == [a[0]] + tail;
      assert a[0] in a;
      FormatPlainChar(a[0], tail, fields);
      assert BraceFree(a[1..]) by {
        assert forall c :: c in a[1..] ==> c in a;
      }
      FormatLiteralPrefix(a[1..], rest, fields);
      PrependTwice([a[0]], a[1..], Format(rest, fields));
      assert [a[0]] + a[1..] == a;
    }
  }

  lemma PrependNothing(r: Result<string>)
    ensures Prepend("", r) == r
  {
    if r.Ok? {
      assert "" + r.value == r.value;
    }
  }

  lemma PrependTwice(p: string, q: string, r: Result<string>)
    ensures Prepend(p, Prepend(q, r)) == Prepend(p + q, r)
  {
    if r.Ok? {
      assert p + (q + r.value) == (p + q) + r.value;
    }
  }

  /** A template with a single placeholder `{name}` between brace-free text renders to that
      text with the field's value in place of the placeholder. */
  lemma {:induction false} FormatOnePlaceholder(a: string, name: string, b: string, fields: map<string, string>)
    requires BraceFree(a) && BraceFree(name) && BraceFree(b)
    requires !Positional(name) && name in fields
    ensures Format(a + "{" + name + "}" + b, fields) == Ok(a + fields[name] + b)
  {
    assert a + "{" + name + "}" + b == a + ("{" + name + "}" + b);
    FormatLiteralPrefix(a, "{" + name + "}" + b, fields);
    FormatPlaceholderAlone(name, b, fields);
    assert a + (fields[name] + b) == a + fields[name] + b;
  }

  /** The same template fails with `KeyError(name)` when the field is not supplied. */
  lemma {:induction false} FormatMissingField(a: string, name: string, b: string, fields: map<string, string>)
    requires BraceFree(a) && BraceFree(name)
    requires !Positional(name) && name !in fields
    ensures Format(a + "{" + name + "}" + b, fields) == Err(KeyError(name))
  {
    assert a + "{" + name + "}" + b == a + ("{" + name + "}" + b);
    FormatLiteralPrefix(a, "{" + name + "}" + b, fields);
    FormatLeadingPlaceholder(name, b, fields);
  }

  /** `{}` or `{0}` after brace-free text raises `IndexError`: the fields are all keywords. */
  lemma {:induction false} FormatPositionalField(a: string, name: string, b: string, fields: map<string, string>)
    requires BraceFree(a) && Positional(name)
    ensures Format(a + "{" + name + "}" + b, fields) == Err(IndexError(NoPositional))
  {
    var t := "{" + name + "}" + b;
    assert a + "{" + name + "}" + b == a + t;
    FormatLiteralPrefix(a, t, fields);
    PositionalAlone(name, b, fields);
  }

  lemma {:induction false} PositionalAlone(name: string, b: string, fields: map<string, string>)
    requires Positional(name)
    ensures Format("{" + name + "}" + b, fields) == Err(IndexError(NoPositional))
  {
    assert BraceFree(name) by {
      assert forall c :: c in name ==> '0' <= c <= '9';
    }
    var t := "{" + name + "}" + b;
    ClosingBrace(name, b);
    assert t[1..] == name + "}" + b;
    if name == "" {
      assert t[1] == '}';
    } else {
      assert t[1] == name[0];
    }
    FormatOpening(t, fields, |name|);
    assert t[1..1 + |name|] == name;
  }

  /** A `{` met before the field's closing brace is a `ValueError`, as in `{a{b}`; with no
      name in between the pair is the escape `{{`. */
  lemma {:induction false} FormatBraceInName(a: string, name: string, b: string, fields: map<string, string>)
    requires BraceFree(a) && BraceFree(name) && name != ""
    ensures Format(a + "{" + name + "{" + b, fields) == Err(ValueError("unexpected '{' in field name"))
  {
    var t := "{" + name + "{" + b;
    assert a + "{" + name + "{" + b == a + t;
    FormatLiteralPrefix(a, t, fields);
    BraceInNameAlone(name, b, fields);
  }

  lemma {:induction false} BraceInNameAlone(name: string, b: string, fields: map<string, string>)
    requires BraceFree(name) && name != ""
    ensures Format("{" + name + "{" + b, fields) == Err(ValueError("unexpected '{' in field name"))
  {
    var t := "{" + name + "{" + b;
    FirstBraceAfter(name, '{', b);
    assert t[1..] == name + "{" + b;
    assert t[1 + |name|] == '{';
    assert t[1] == name[0] && name[0] in name;
  }

  lemma {:induction false} FirstBraceAfter(name: string, c: char, b: string)
    requires BraceFree(name) && (c == '{' || c == '}')
    ensures FirstBrace(name + [c] + b) == |name|
    decreases |name|
  {
    var s := name + [c] + b;
    if name == "" {
      assert s[0] == c;
    } else {
      assert name[0] in name;
      assert s[1..] == name[1..] + [c] + b;
      assert BraceFree(name[1..]) by {
        assert forall x :: x in name[1..] ==> x in name;
      }
      FirstBraceAfter(name[1..], c, b);
    }
  }
}
