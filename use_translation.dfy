/**
 * The `t` function of hooks/useTranslation.ts: look a key up with
 * `getTranslation`, then, for each supplied variable in the order `Object.keys`
 * lists them, build the regular expression `/{name}/g` and replace every match
 * in the current string by the variable's value.
 *
 * The replacement is modelled as a literal replace-all: a scan from the left that
 * replaces each non-overlapping occurrence. That is what the source's global
 * regular expression does when the name holds no regular-expression
 * metacharacters and the value holds no `$` replacement patterns. Two ways the
 * source throws are modelled: a name such as `0` or `1,2` turns the pattern into
 * a braced quantifier with nothing to repeat, and an inherited member has no
 * `replace` method.
 */
module UseTranslation {
  import opened Common
  import opened Translations

  /** A variable's value, `string | number`; numbers are the safe integers. */
  datatype VarValue = Text(text: string) | Number(n: SafeInteger)

  /** A supplied variable, in the order `Object.keys` lists it. */
  datatype Variable = Variable(name: string, value: VarValue)

  /** Why `t` throws: the pattern is not a valid regular expression, or the lookup gave no string. */
  datatype TranslateError = InvalidPattern(pattern: string) | ReplaceIsNotAFunction

  /** `String(value)`: a string as it is, a number as its canonical decimal numeral. */
  function Display(v: VarValue): (s: string)
    ensures v.Text? ==> s == v.text
    ensures v.Number? ==> ParseInteger(s) == Some(v.n as int)
  {
    match v
    case Text(t) => t
    case Number(n) => IntToString(n)
  }

  /** The placeholder `{name}` for a variable name. */
  function Placeholder(name: string): (p: string)
    ensures |p| == |name| + 2 && p[0] == '{' && p[|p| - 1] == '}'
    ensures p[1..|p| - 1] == name
  {
    "{" + name + "}"
  }

  predicate OccursAt(s: string, p: string, i: nat)
  {
    i + |p| <= |s| && s[i..i + |p|] == p
  }

  ghost predicate Occurs(s: string, p: string)
  {
    exists i: nat :: OccursAt(s, p, i)
  }

  /** No proper prefix of `p` is also a suffix of it, so two occurrences of `p` never overlap. */
  predicate BorderFree(p: string)
  {
    forall k :: 0 < k < |p| ==> p[k..] != p[..|p| - k]
  }

  /** Replace every occurrence of `p` in `s` by `r`, scanning left to right. */
  function ReplaceAll(s: string, p: string, r: string): (t: string)
    requires |p| > 0
    ensures r == p ==> t == s
    ensures |r| <= |p| ==> |t| <= |s|
    decreases |s|
  {
    if |s| < |p| then s
    else if s[..|p|] == p then
      assert s[..|p|] + s[|p|..] == s;
      r + ReplaceAll(s[|p|..], p, r)
    else
      assert [s[0]] + s[1..] == s;
      [s[0]] + ReplaceAll(s[1..], p, r)
  }

  /** `parts` joined with `sep` between consecutive parts. */
  function Join(parts: seq<string>, sep: string): string
    requires |parts| > 0
  {
    if |parts| == 1 then parts[0] else parts[0] + sep + Join(parts[1..], sep)
  }

  /** Apply the variables one at a time, in order, each to the previous result. */
  function SubstituteAll(s: string, variables: seq<Variable>): string
    decreases |variables|
  {
    if variables == [] then s
    else SubstituteAll(ReplaceAll(s, Placeholder(variables[0].name), Display(variables[0].value)), variables[1..])
  }

  /** Applying variables in order leaves a text that holds none of their placeholders unchanged. */
  lemma {:induction false} SubstituteAbsentPlaceholders(s: string, variables: seq<Variable>)
    requires forall i :: 0 <= i < |variables| ==> !Occurs(s, Placeholder(variables[i].name))
    ensures SubstituteAll(s, variables) == s
    decreases |variables|
  {
    if variables != [] {
      FirstReplaceKeepsAbsent(s, variables);
      SubstituteAbsentPlaceholders(s, variables[1..]);
    }
  }

  /** When no placeholder occurs, the first replacement changes nothing, so none occurs afterwards either. */
  lemma FirstReplaceKeepsAbsent(s: string, variables: seq<Variable>)
    requires |variables| > 0
    ensures (forall i :: 0 <= i < |variables| ==> !Occurs(s, Placeholder(variables[i].name))) ==>
      && ReplaceAll(s, Placeholder(variables[0].name), Display(variables[0].value)) == s
      && forall i :: 0 <= i < |variables[1..]| ==> !Occurs(s, Placeholder(variables[1..][i].name))
  {
    if forall i :: 0 <= i < |variables| ==> !Occurs(s, Placeholder(variables[i].name)) {
      ReplaceAllNoOccurrence(s, Placeholder(variables[0].name), Display(variables[0].value));
      forall i | 0 <= i < |variables[1..]|
        ensures !Occurs(s, Placeholder(variables[1..][i].name))
      {
        assert variables[1..][i] == variables[i + 1];
      }
    }
  }

  /** A placeholder whose name has no braces cannot overlap itself. */
  lemma PlaceholderBorderFree(name: string)
    requires '{' !in name && '}' !in name
    ensures BorderFree(Placeholder(name))
  {
    var p := Placeholder(name);
    forall k | 0 < k < |p|
      ensures p[k..] != p[..|p| - k]
    {
      assert p[..|p| - k][0] == '{';
      if k <= |name| {
        assert p[k..][0] == name[k - 1];
      } else {
        assert p[k..][0] == '}';
      }
    }
  }

  /** A string without the placeholder has none in its tail either. */
  lemma NoOccurrenceInTail(s: string, p: string)
    requires |s| > 0 && !Occurs(s, p)
    ensures !Occurs(s[1..], p)
  {
    forall i: nat
      ensures !OccursAt(s[1..], p, i)
    {
      assert !OccursAt(s, p, i + 1);
      if i + |p| <= |s[1..]| {
        assert s[1..][i..i + |p|] == s[i + 1..i + 1 + |p|];
      }
    }
  }

  /** A non-empty prefix `a` without `p`, followed by `p`, does not start with `p` when `p` cannot overlap itself. */
  lemma NoOccurrenceAtStart(a: string, p: string, b: string)
    requires |p| > 0 && BorderFree(p) && !Occurs(a, p) && |a| > 0
    ensures (a + p + b)[..|p|] != p
  {
    var s := a + p + b;
    if |a| >= |p| {
      assert !OccursAt(a, p, 0);
      assert s[..|p|] == a[..|p|];
    } else {
      assert s[..|p|][|a|..] == p[..|p| - |a|];
      assert p[|a|..] != p[..|p| - |a|];
    }
  }

  /** A string without the placeholder passes through unchanged. */
  lemma {:induction false} ReplaceAllNoOccurrence(s: string, p: string, r: string)
    requires |p| > 0 && !Occurs(s, p)
    ensures ReplaceAll(s, p, r) == s
    decreases |s|
  {
    if |s| >= |p| {
      assert !OccursAt(s, p, 0);
      NoOccurrenceInTail(s, p);
      ReplaceAllNoOccurrence(s[1..], p, r);
      assert [s[0]] + s[1..] == s;
    }
  }

  /** A match at the front is replaced and the scan resumes after it. */
  lemma ReplaceAllHit(p: string, r: string, b: string)
    requires |p| > 0
    ensures ReplaceAll(p + b, p, r) == r + ReplaceAll(b, p, r)
  {
    assert (p + b)[..|p|] == p;
    assert (p + b)[|p|..] == b;
  }

  /** Without a match at the front the first character is kept and the scan moves on by one. */
  lemma ReplaceAllMiss(s: string, p: string, r: string)
    requires |p| > 0 && |s| >= |p| && s[..|p|] != p
    ensures ReplaceAll(s, p, r) == [s[0]] + ReplaceAll(s[1..], p, r)
  {
  }

  /** Text before the first occurrence is copied verbatim, and that occurrence is replaced. */
  lemma {:induction false} ReplaceAllAfterPlain(a: string, p: string, r: string, b: string)
    requires |p| > 0 && BorderFree(p) && !Occurs(a, p)
    ensures ReplaceAll(a + p + b, p, r) == a + r + ReplaceAll(b, p, r)
    decreases |a|
  {
    if a == [] {
      assert a + p + b == p + b;
      ReplaceAllHit(p, r, b);
    } else {
      var s := a + p + b;
      NoOccurrenceAtStart(a, p, b);
      ReplaceAllMiss(s, p, r);
      assert s[1..] == a[1..] + p + b;
      NoOccurrenceInTail(a, p);
      ReplaceAllAfterPlain(a[1..], p, r, b);
      assert a + r + ReplaceAll(b, p, r) == [a[0]] + (a[1..] + r + ReplaceAll(b, p, r));
    }
  }

  /**
   * Every occurrence is replaced and the text around the occurrences is kept:
   * replacing `p` by `r` in the parts joined with `p` gives the parts joined with `r`.
   */
  lemma {:induction false} ReplaceAllJoin(parts: seq<string>, p: string, r: string)
    requires |parts| > 0 && |p| > 0 && BorderFree(p)
    requires forall i :: 0 <= i < |parts| ==> !Occurs(parts[i], p)
    ensures ReplaceAll(Join(parts, p), p, r) == Join(parts, r)
    decreases |parts|
  {
    if |parts| == 1 {
      ReplaceAllNoOccurrence(parts[0], p, r);
    } else {
      ReplaceAllAfterPlain(parts[0], p, r, Join(parts[1..], p));
      ReplaceAllJoin(parts[1..], p, r);
    }
  }

  /** `parts` splits `s` at occurrences of `p`: no part holds `p`, and joined with `p` they give `s`. */
  ghost predicate SplitOf(parts: seq<string>, p: string, s: string)
  {
    |parts| > 0 && (forall i :: 0 <= i < |parts| ==> !Occurs(parts[i], p)) && Join(parts, p) == s
  }

  /** A string shorter than the pattern holds no occurrence of it. */
  lemma NoOccurrenceInShort(s: string, p: string)
    requires |s| < |p|
    ensures !Occurs(s, p)
  {
  }

  /** A character in front of a string without `p` adds no occurrence unless it starts one. */
  lemma NoOccurrenceAfterCons(c: char, a: string, p: string)
    requires |p| > 0 && !Occurs(a, p)
    requires |[c] + a| < |p| || ([c] + a)[..|p|] != p
    ensures !Occurs([c] + a, p)
  {
    var s := [c] + a;
    forall i: nat
      ensures !OccursAt(s, p, i)
    {
      if i > 0 && i + |p| <= |s| {
        assert s[i..i + |p|] == a[i - 1..i - 1 + |p|];
        assert !OccursAt(a, p, i - 1);
      }
    }
  }

  /** Every string splits at the occurrences of a non-empty pattern, found left to right. */
  lemma {:induction false} SplitExists(s: string, p: string)
    requires |p| > 0
    ensures exists parts :: SplitOf(parts, p, s)
    decreases |s|
  {
    if |s| < |p| {
      NoOccurrenceInShort(s, p);
      assert SplitOf([s], p, s);
    } else if s[..|p|] == p {
      SplitExists(s[|p|..], p);
      var rest :| SplitOf(rest, p, s[|p|..]);
      NoOccurrenceInShort("", p);
      var parts := [""] + rest;
      assert parts[1..] == rest;
      assert s == s[..|p|] + s[|p|..];
      assert Join(parts, p) == s;
      forall i | 0 <= i < |parts|
        ensures !Occurs(parts[i], p)
      {
        if i > 0 {
          assert parts[i] == rest[i - 1];
        }
      }
      assert SplitOf(parts, p, s);
    } else {
      SplitExists(s[1..], p);
      var rest :| SplitOf(rest, p, s[1..]);
      var first := [s[0]] + rest[0];
      var parts := [first] + rest[1..];
      assert s == [s[0]] + s[1..];
      if |rest| == 1 {
        assert Join(parts, p) == first;
      } else {
        assert parts[1..] == rest[1..];
        assert Join(rest, p) == rest[0] + p + Join(rest[1..], p);
        assert Join(parts, p) == first + p + Join(rest[1..], p);
      }
      assert Join(parts, p) == s;
      if |first| >= |p| {
        assert first[..|p|] == s[..|p|];
      }
      NoOccurrenceAfterCons(s[0], rest[0], p);
      forall i | 0 <= i < |parts|
        ensures !Occurs(parts[i], p)
      {
        if i > 0 {
          assert parts[i] == rest[i];
        }
      }
      assert SplitOf(parts, p, s);
    }
  }

  /**
   * For a brace-free name, every text is covered: it splits at its placeholders,
   * and substituting the variable joins those same parts with the value.
   */
  lemma EveryPlaceholderReplaced(s: string, v: Variable)
    requires '{' !in v.name && '}' !in v.name
    ensures exists parts ::
              SplitOf(parts, Placeholder(v.name), s) && SubstituteAll(s, [v]) == Join(parts, Display(v.value))
  {
    SplitExists(s, Placeholder(v.name));
    var parts :| SplitOf(parts, Placeholder(v.name), s);
    SubstituteOneVariable(parts, v);
  }

  /** Substituting one variable replaces each `{name}` by its value and keeps all other text. */
  lemma SubstituteOneVariable(parts: seq<string>, v: Variable)
    requires |parts| > 0 && '{' !in v.name && '}' !in v.name
    requires forall i :: 0 <= i < |parts| ==> !Occurs(parts[i], Placeholder(v.name))
    ensures SubstituteAll(Join(parts, Placeholder(v.name)), [v]) == Join(parts, Display(v.value))
  {
    PlaceholderBorderFree(v.name);
    ReplaceAllJoin(parts, Placeholder(v.name), Display(v.value));
  }

  /** The variables are applied in sequence: substituting `v1 + v2` is substituting `v1`, then `v2`. */
  lemma {:induction false} SubstituteInSequence(s: string, v1: seq<Variable>, v2: seq<Variable>)
    ensures SubstituteAll(s, v1 + v2) == SubstituteAll(SubstituteAll(s, v1), v2)
    decreases |v1|
  {
    if v1 == [] {
      assert v1 + v2 == v2;
    } else {
      assert (v1 + v2)[0] == v1[0];
      assert (v1 + v2)[1..] == v1[1..] + v2;
      SubstituteInSequence(ReplaceAll(s, Placeholder(v1[0].name), Display(v1[0].value)), v1[1..], v2);
    }
  }

  predicate IsDigits(s: string)
  {
    |s| > 0 && forall i :: 0 <= i < |s| ==> IsDigit(s[i])
  }

  /**
   * A name `n` for which `{n}` is a braced quantifier (`{3}`, `{3,}` or `{3,5}`):
   * at the start of a pattern it has nothing to repeat, so `new RegExp` throws a
   * SyntaxError.
   */
  predicate QuantifierBody(name: string)
  {
    || IsDigits(name)
    || (exists k | 0 < k < |name| :: name[k] == ',' && IsDigits(name[..k]) && (k == |name| - 1 || IsDigits(name[k + 1..])))
  }

  /** Every integer-like name (an array index, which `Object.keys` lists first) is one of them. */
  lemma IntegerNameIsQuantifier(n: nat)
    ensures QuantifierBody(NatToString(n))
  {
  }

  /** The index of the first variable whose pattern throws, if any. */
  function FirstInvalid(variables: seq<Variable>): (r: Option<nat>)
    ensures r.Some? ==> r.value < |variables| && QuantifierBody(variables[r.value].name)
    ensures r.Some? ==> forall j :: 0 <= j < r.value ==> !QuantifierBody(variables[j].name)
    ensures r.None? ==> forall j :: 0 <= j < |variables| ==> !QuantifierBody(variables[j].name)
  {
    if variables == [] then None
    else if QuantifierBody(variables[0].name) then Some(0)
    else
      match FirstInvalid(variables[1..])
      case None => None
      case Some(i) => Some(i + 1)
  }

  /**
   * What `t` returns or throws once the lookup gave `v`: the first variable
   * builds its pattern and then calls `replace`, so a first name that throws
   * wins over an inherited member; after that the translation is a string, and
   * the first name that throws ends the substitution.
   */
  function Substitute(v: Value, variables: seq<Variable>): (r: Result<Value, TranslateError>)
    ensures r.Err? <==> FirstInvalid(variables).Some? || (v.Inherited? && variables != [])
    ensures r == Err(ReplaceIsNotAFunction) <==>
      v.Inherited? && variables != [] && !QuantifierBody(variables[0].name)
    ensures r.Ok? && variables != [] ==> r.value.Str?
  {
    if variables == [] then Ok(v)
    else if QuantifierBody(variables[0].name) then Err(InvalidPattern(Placeholder(variables[0].name)))
    else if v.Inherited? then Err(ReplaceIsNotAFunction)
    else
      match FirstInvalid(variables)
      case Some(i) => Err(InvalidPattern(Placeholder(variables[i].name)))
      case None => Ok(Str(SubstituteAll(v.text, variables)))
  }

  /** A pattern that throws at index `i`, with every earlier one valid, is what `t` throws. */
  lemma SubstituteThrowsAt(v: Value, vars: seq<Variable>, i: nat)
    requires i < |vars| && QuantifierBody(vars[i].name)
    requires forall j :: 0 <= j < i ==> !QuantifierBody(vars[j].name)
    requires i > 0 ==> v.Str?
    ensures Substitute(v, vars) == Err(InvalidPattern(Placeholder(vars[i].name)))
  {
    if i > 0 {
      assert FirstInvalid(vars) == Some(i);
    }
  }

  /** With every pattern valid, a string lookup gets every variable substituted. */
  lemma SubstituteCompletes(s: string, vars: seq<Variable>)
    requires forall j :: 0 <= j < |vars| ==> !QuantifierBody(vars[j].name)
    ensures Substitute(Str(s), vars) == Ok(Str(SubstituteAll(s, vars)))
  {
    if vars != [] {
      assert FirstInvalid(vars) == None;
    }
  }

  /** The `forEach` of `t`: substitute the variables one at a time into the looked-up value. */
  method SubstituteVariables(v: Value, vars: seq<Variable>) returns (r: Result<Value, TranslateError>)
    ensures r == Substitute(v, vars)
  {
    if vars == [] {
      return Ok(v);
    }
    if QuantifierBody(vars[0].name) {
      SubstituteThrowsAt(v, vars, 0);
      return Err(InvalidPattern(Placeholder(vars[0].name)));
    }
    if v.Inherited? {
      return Err(ReplaceIsNotAFunction);
    }
    var translation := v.text;
    for i := 0 to |vars|
      invariant forall j :: 0 <= j < i ==> !QuantifierBody(vars[j].name)
      invariant SubstituteAll(translation, vars[i..]) == SubstituteAll(v.text, vars)
    {
      if QuantifierBody(vars[i].name) {
        SubstituteThrowsAt(v, vars, i);
        return Err(InvalidPattern(Placeholder(vars[i].name)));
      }
      assert vars[i..][1..] == vars[i + 1..];
      translation := ReplaceAll(translation, Placeholder(vars[i].name), Display(vars[i].value));
    }
    assert vars[|vars|..] == [];
    SubstituteCompletes(v.text, vars);
    r := Ok(Str(translation));
  }

  /**
   * `t(key, variables)`: the lookup, with every supplied variable substituted
   * when `variables` is given; throws as `Substitute` says.
   */
  method Translate(language: Language, key: string, variables: Option<seq<Variable>>)
    returns (r: Result<Value, TranslateError>)
    ensures variables.None? ==> r == Ok(GetTranslation(language, key))
    ensures variables.Some? ==> r == Substitute(GetTranslation(language, key), variables.value)
  {
    var translation := GetTranslation(language, key);
    if variables.None? {
      return Ok(translation);
    }
    r := SubstituteVariables(translation, variables.value);
  }
}
