/**
  The landing page's hero section: a text field and a "Generate Machine"
  button. Submitting hands the untrimmed text to the parent's `onGenerate`
  when it is not blank; the field is never cleared and the handler does not
  look at `isGenerating`, which only disables the button.

  The component changes no state on submit, so the handler is a function of
  the field's text whose result is the argument passed to `onGenerate`.
 */
module HeroSection {
  import opened Js

  /** handleSubmit: `onGenerate(query)` exactly when the query is not blank. */
  function Submit(query: string): (generated: Option<string>)
    ensures generated.Some? <==> !IsBlank(query)
    ensures generated.Some? ==> generated.value == query
  {
    if !IsBlank(query) then Some(query) else None
  }

  /** The submit button is disabled while generating or with a blank query. */
  predicate Disabled(isGenerating: bool, query: string)
    ensures Disabled(isGenerating, query) <==> isGenerating || Submit(query).None?
  {
    isGenerating || IsBlank(query)
  }

  /** The button's text. */
  function ButtonLabel(isGenerating: bool): (text: string)
    ensures text == "Generating..." <==> isGenerating
  {
    if isGenerating then "Generating..." else "Generate Machine"
  }

  /** An enabled button always generates, and with the text as typed: a query
      of spaces alone disables the button and never reaches onGenerate. */
  lemma EnabledButtonGenerates(isGenerating: bool, query: string)
    ensures !Disabled(isGenerating, query) ==> Submit(query) == Some(query)
    ensures Submit(query).None? ==> Disabled(isGenerating, query)
  {
  }

  /** The handler itself does not consult isGenerating: a disabled button
      hides a query that the handler would still pass on. */
  lemma HandlerIgnoresGenerating(query: string)
    requires !IsBlank(query)
    ensures Disabled(true, query) && Submit(query) == Some(query)
  {
  }

  /** Text with something other than white space around it is passed on
      with its white space intact. */
  lemma PaddedQueryKept()
    ensures Submit(" x ") == Some(" x ")
  {
    assert !IsWhitespace(" x "[1]);
    BlankIffAllWhitespace(" x ");
  }
}
