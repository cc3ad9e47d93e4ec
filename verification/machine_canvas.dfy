/**
  The machine canvas's background glow: a colour name from the prompt is
  looked up, case-insensitively, in a table of seven colours, with a cyan
  default for an absent, empty or unknown name.

  The table is a plain JavaScript object, so a lookup also sees the members
  every object inherits. Two of those have lower-case names, "constructor"
  and "__proto__", and both are truthy: for those names the component's
  lookup returns an object instead of a colour. GlowColorAsWritten models the
  lookup as the component does it; GlowColor is the lookup restricted to the
  table's own entries, which the rest of the model uses.
 */
module MachineCanvas {
  import opened Js

  const DefaultGlow: string := "rgba(6,182,212,0.15)"

  const ColorMap: map<string, string> := map[
    "red" := "rgba(239,68,68,0.2)",
    "blue" := "rgba(59,130,246,0.2)",
    "green" := "rgba(16,185,129,0.2)",
    "yellow" := "rgba(234,179,8,0.2)",
    "purple" := "rgba(147,51,234,0.2)",
    "orange" := "rgba(249,115,22,0.2)",
    "cyan" := "rgba(6,182,212,0.15)"
  ]

  /** The glow for an optional prompt colour: the default for null or "",
      otherwise the table entry of its lower case, or the default if none. */
  function GlowColor(promptColor: Option<string>): (glow: string)
    ensures promptColor.None? || promptColor == Some("") ==> glow == DefaultGlow
    ensures promptColor.Some? && promptColor.value != "" && ToLower(promptColor.value) in ColorMap ==>
      glow == ColorMap[ToLower(promptColor.value)]
    ensures promptColor.Some? && ToLower(promptColor.value) !in ColorMap ==> glow == DefaultGlow
    ensures glow == DefaultGlow || glow in ColorMap.Values
  {
    if promptColor.None? || promptColor.value == "" then DefaultGlow
    else
      var key := ToLower(promptColor.value);
      if key in ColorMap then ColorMap[key] else DefaultGlow
  }

  /** Names that differ only in letter case give the same glow. */
  lemma GlowIgnoresCase(a: string, b: string)
    requires ToLower(a) == ToLower(b)
    ensures GlowColor(Some(a)) == GlowColor(Some(b))
  {
  }

  /** "cyan" gives the same glow as no colour at all. */
  lemma CyanIsDefault()
    ensures GlowColor(Some("cyan")) == GlowColor(None)
  {
    assert ToLower("cyan") == "cyan";
  }

  // ---------------------------------------------------------------------------
  // The lookup as the component does it
  // ---------------------------------------------------------------------------

  /** What indexing the object literal yields: one of its own strings, one of
      the two lower-case members it inherits, or undefined. */
  datatype JsValue = Str(s: string) | ObjectConstructor | ObjectPrototype | Undefined

  predicate Truthy(v: JsValue)
  {
    match v
    case Str(s) => s != ""
    case Undefined => false
    case _ => true
  }

  /** `colorMap[key]`. */
  function Index(key: string): (v: JsValue)
    ensures key in ColorMap ==> v == Str(ColorMap[key])
  {
    if key in ColorMap then Str(ColorMap[key])
    else if key == "constructor" then ObjectConstructor
    else if key == "__proto__" then ObjectPrototype
    else Undefined
  }

  /** `colorMap[promptColor.toLowerCase()] || default`, after the falsy check. */
  function GlowColorAsWritten(promptColor: Option<string>): (glow: JsValue)
    ensures promptColor.None? || promptColor == Some("") ==> glow == Str(DefaultGlow)
  {
    if promptColor.None? || promptColor.value == "" then Str(DefaultGlow)
    else
      var v := Index(ToLower(promptColor.value));
      if Truthy(v) then v else Str(DefaultGlow)
  }

  /** For every name whose lower case is not an inherited member's, the
      component's lookup gives exactly the corrected glow. */
  lemma AsWrittenAgrees(promptColor: Option<string>)
    requires promptColor.Some? ==>
      ToLower(promptColor.value) != "constructor" && ToLower(promptColor.value) != "__proto__"
    ensures GlowColorAsWritten(promptColor) == Str(GlowColor(promptColor))
  {
  }

  /** The colour name "Constructor" yields the Object constructor, not a colour. */
  lemma ConstructorIsNotAColor()
    ensures GlowColorAsWritten(Some("Constructor")) == ObjectConstructor
    ensures GlowColor(Some("Constructor")) == DefaultGlow
  {
    assert ToLower("Constructor") == "constructor";
  }
}
