/** The `%` interpolation of Python's `ConfigParser` (its default
    `BasicInterpolation`), which every table of project preferences uses:
    a value may refer to another option of its section as `%(name)s`, and
    `%%` stands for a literal percent sign. Storing a value checks its
    syntax (`before_set`); reading it expands the references (`before_get`),
    nesting at most ten levels deep. */
module Interpolation {
  import opened Wrappers

  /** `InterpolationSyntaxError`, `InterpolationMissingOptionError` and
      `InterpolationDepthError`. */
  datatype InterpError = BadSyntax | MissingOption | TooDeep

  /** `MAX_INTERPOLATION_DEPTH`. */
  const MaxDepth: nat := 10

  /** The longest prefix of `s` without a closing parenthesis. */
  function UpToParen(s: string): (r: string)
    ensures |r| <= |s| && r == s[..|r|]
    ensures ')' !in r
    ensures |r| == |s| || s[|r|] == ')'
  {
    if s == [] || s[0] == ')' then [] else [s[0]] + UpToParen(s[1..])
  }

  /** The name of the reference `%(name)s` that `s` starts with, when it
      starts with one: the pattern `%\(([^)]+)\)s` matched at the start. */
  function RefAt(s: string): (r: Option<string>)
    ensures r.Some? ==> |r.value| > 0 && ')' !in r.value && |s| >= |r.value| + 4
    ensures r.Some? ==> s[..|r.value| + 4] == "%(" + r.value + ")s"
  {
    if |s| >= 2 && s[0] == '%' && s[1] == '(' then
      var n := UpToParen(s[2..]);
      if |n| > 0 && |s| >= |n| + 4 && s[|n| + 3] == 's' then Some(n) else None
    else None
  }

  /** The name up to the first closing parenthesis is the whole name. */
  lemma {:induction false} UpToParenOfName(n: string, t: string)
    requires ')' !in n
    ensures UpToParen(n + [')'] + t) == n
  {
    if n != [] {
      assert (n + [')'] + t)[1..] == n[1..] + [')'] + t;
      UpToParenOfName(n[1..], t);
    }
  }

  /** Any text that starts with a well-formed reference starts with that
      reference. */
  lemma RefAtFinds(n: string, t: string)
    requires |n| > 0 && ')' !in n
    ensures RefAt("%(" + n + ")s" + t) == Some(n)
  {
    var s := "%(" + n + ")s" + t;
    assert s[2..] == n + [')'] + (['s'] + t);
    UpToParenOfName(n, ['s'] + t);
  }

  /** A result with `p` put in front of its value. */
  function Prepend(p: string, r: Result<string, InterpError>): Result<string, InterpError> {
    if r.Ok? then Ok(p + r.value) else r
  }

  /** The value `rest` reads as, with `vars` the raw options of its section,
      at nesting level `depth` (`BasicInterpolation._interpolate_some`):
      text is copied, `%%` becomes `%`, `%(name)s` becomes the option
      `name`, itself expanded when it holds a `%`; anything else after a
      `%` is a syntax error. The first error met from left to right is the
      one reported. */
  function Expand(vars: map<string, string>, rest: string, depth: nat): Result<string, InterpError>
    requires 1 <= depth <= MaxDepth
    decreases MaxDepth - depth, |rest|
  {
    if rest == [] then Ok([])
    else if rest[0] != '%' then Prepend([rest[0]], Expand(vars, rest[1..], depth))
    else if |rest| >= 2 && rest[1] == '%' then Prepend("%", Expand(vars, rest[2..], depth))
    else if |rest| >= 2 && rest[1] == '(' then
      match RefAt(rest)
      case None => Err(BadSyntax)
      case Some(name) =>
        if name !in vars then Err(MissingOption)
        else
          var v := vars[name];
          var head := if '%' !in v then Ok(v)
            else if depth == MaxDepth then Err(TooDeep)
            else Expand(vars, v, depth + 1);
          if head.Err? then head
          else Prepend(head.value, Expand(vars, rest[|name| + 4..], depth))
    else Err(BadSyntax)
  }

  /** `value.replace('%%', '')`: escaped percent signs removed, left to
      right. */
  function DropEscapes(s: string): (r: string)
    ensures |r| <= |s|
  {
    if s == [] then []
    else if |s| >= 2 && s[0] == '%' && s[1] == '%' then DropEscapes(s[2..])
    else [s[0]] + DropEscapes(s[1..])
  }

  /** `_KEYCRE.sub('', s)`: well-formed references removed, left to right. */
  function DropRefs(s: string): (r: string)
    ensures |r| <= |s|
    decreases |s|
  {
    if s == [] then []
    else match RefAt(s)
      case Some(n) => DropRefs(s[|n| + 4..])
      case None => [s[0]] + DropRefs(s[1..])
  }

  /** The check `before_set` makes: once escapes and references are
      removed, no `%` may remain. */
  predicate Settable(value: string) {
    '%' !in DropRefs(DropEscapes(value))
  }

  /** `value` with every percent sign doubled, so that it reads back as
      itself. */
  function Escape(value: string): (r: string)
    ensures |r| >= |value|
  {
    if value == [] then []
    else (if value[0] == '%' then "%%" else [value[0]]) + Escape(value[1..])
  }

  /** Text without a percent sign is left alone by both removals. */
  lemma {:induction false} DropsKeepPlain(s: string)
    requires '%' !in s
    ensures DropEscapes(s) == s && DropRefs(s) == s
  {
    if s != [] {
      assert '%' !in s[1..];
      DropsKeepPlain(s[1..]);
    }
  }

  /** A value without a percent sign is accepted when stored and reads back
      unchanged. */
  lemma {:induction false} PlainValue(vars: map<string, string>, v: string, depth: nat)
    requires 1 <= depth <= MaxDepth
    requires '%' !in v
    ensures Settable(v)
    ensures Expand(vars, v, depth) == Ok(v)
  {
    DropsKeepPlain(v);
    if v != [] {
      assert '%' !in v[1..];
      PlainValue(vars, v[1..], depth);
    }
  }

  /** Escaping leaves no percent sign once escapes are removed. */
  lemma {:induction false} EscapeDropsAll(v: string)
    ensures '%' !in DropEscapes(Escape(v))
  {
    if v != [] {
      assert Escape(v) == (if v[0] == '%' then "%%" else [v[0]]) + Escape(v[1..]);
      if v[0] == '%' {
        assert Escape(v)[2..] == Escape(v[1..]);
      } else {
        assert Escape(v)[1..] == Escape(v[1..]);
      }
      EscapeDropsAll(v[1..]);
    }
  }

  /** An escaped value is accepted when stored and reads back as the value
      before escaping. */
  lemma {:induction false} EscapeRoundTrip(vars: map<string, string>, v: string, depth: nat)
    requires 1 <= depth <= MaxDepth
    ensures Settable(Escape(v))
    ensures Expand(vars, Escape(v), depth) == Ok(v)
  {
    EscapeDropsAll(v);
    DropsKeepPlain(DropEscapes(Escape(v)));
    if v != [] {
      var e := Escape(v);
      assert e == (if v[0] == '%' then "%%" else [v[0]]) + Escape(v[1..]);
      EscapeRoundTrip(vars, v[1..], depth);
      if v[0] == '%' {
        assert e[2..] == Escape(v[1..]);
        assert v == "%" + v[1..];
      } else {
        assert e[1..] == Escape(v[1..]);
        assert v == [v[0]] + v[1..];
      }
    }
  }

  /** A reference to an option whose value holds no percent sign reads as
      that value, and a reference to a missing option fails. */
  lemma OneReference(vars: map<string, string>, name: string, depth: nat)
    requires 1 <= depth <= MaxDepth
    requires |name| > 0 && ')' !in name
    ensures name in vars && '%' !in vars[name] ==> Expand(vars, "%(" + name + ")s", depth) == Ok(vars[name])
    ensures name !in vars ==> Expand(vars, "%(" + name + ")s", depth) == Err(MissingOption)
  {
    var s := "%(" + name + ")s";
    RefAtFinds(name, []);
    assert s + [] == s;
    assert s[|name| + 4..] == [];
    if name in vars && '%' !in vars[name] {
      assert vars[name] + [] == vars[name];
    }
  }

  /** A lone percent sign at the end of otherwise plain text is refused
      when stored and is a syntax error when read. */
  lemma {:induction false} StrayPercent(vars: map<string, string>, v: string, depth: nat)
    requires 1 <= depth <= MaxDepth
    requires '%' !in v
    ensures !Settable(v + "%")
    ensures Expand(vars, v + "%", depth) == Err(BadSyntax)
  {
    StrayPercentDrops(v);
    if v != [] {
      assert (v + "%")[1..] == v[1..] + "%";
      assert '%' !in v[1..];
      StrayPercent(vars, v[1..], depth);
    }
  }

  /** Both removals keep the final lone percent sign of `v + "%"`. */
  lemma {:induction false} StrayPercentDrops(v: string)
    requires '%' !in v
    ensures DropEscapes(v + "%") == v + "%"
    ensures DropRefs(v + "%") == v + "%"
  {
    if v != [] {
      assert (v + "%")[1..] == v[1..] + "%";
      assert '%' !in v[1..];
      StrayPercentDrops(v[1..]);
    }
  }
}
