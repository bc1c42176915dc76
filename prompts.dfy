/**
 * Prompt templates with named placeholders, and Python's `str.format` over them
 * (`BaseGenerator._prepare_prompt`). A template is a list of literal text and
 * placeholders; formatting replaces each placeholder by its keyword value and
 * ignores keywords no placeholder names.
 */
module Prompts {
  import opened PyStr

  datatype Segment = Text(text: string) | Field(name: string)

  type Template = seq<Segment>

  /** Python's `kwargs.get(key, default)`. */
  function Get(kwargs: map<string, string>, key: string, default: string): (v: string)
    ensures key in kwargs ==> v == kwargs[key]
    ensures key !in kwargs ==> v == default
  {
    if key in kwargs then kwargs[key] else default
  }

  /** The placeholder names a template refers to. */
  function Fields(t: Template): set<string>
  {
    if t == [] then {}
    else (if t[0].Field? then {t[0].name} else {}) + Fields(t[1..])
  }

  /**
   * `template.format(**kwargs)`. Python raises `KeyError` for a placeholder
   * without a keyword; the precondition states that every placeholder is supplied.
   */
  function Format(t: Template, kwargs: map<string, string>): (r: string)
    requires Fields(t) <= kwargs.Keys
  {
    if t == [] then ""
    else
      (match t[0] case Text(s) => s case Field(n) => kwargs[n]) + Format(t[1..], kwargs)
  }

  /** A template whose every placeholder is among `names` has no other fields. */
  lemma {:induction false} FieldsWithin(t: Template, names: set<string>)
    requires forall k :: 0 <= k < |t| && t[k].Field? ==> t[k].name in names
    ensures Fields(t) <= names
  {
    if t != [] {
      FieldsWithin(t[1..], names);
    }
  }

  /** Every placeholder of a template is among its fields. */
  lemma {:induction false} FieldInFields(t: Template, n: string)
    requires Field(n) in t
    ensures n in Fields(t)
  {
    if t[0] != Field(n) {
      assert Field(n) in t[1..];
      FieldInFields(t[1..], n);
    }
  }

  /** The formatted prompt contains the value of every keyword the template names. */
  lemma {:induction false} FormatContains(t: Template, kwargs: map<string, string>, n: string)
    requires Fields(t) <= kwargs.Keys
    requires Field(n) in t
    ensures n in kwargs && Contains(Format(t, kwargs), kwargs[n])
  {
    FieldInFields(t, n);
    var head := match t[0] case Text(s) => s case Field(m) => kwargs[m];
    var tail := Format(t[1..], kwargs);
    assert Format(t, kwargs) == head + tail;
    if t[0] == Field(n) {
      ContainsConcat("", kwargs[n], tail);
      assert "" + kwargs[n] + tail == head + tail;
    } else {
      assert Field(n) in t[1..];
      FormatContains(t[1..], kwargs, n);
      ContainsExtend(tail, kwargs[n], head, "");
      assert head + tail + "" == head + tail;
    }
  }
}
