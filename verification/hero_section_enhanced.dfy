/**
  The enhanced hero section: the same submit rule and the same disabled
  button as the plain hero section, with the button reading "Generate"
  instead of "Generate Machine". Its handleSubmit is the plain section's
  HeroSection.Submit.
 */
module HeroSectionEnhanced {
  import opened Js
  import HeroSection

  /** The button's text. */
  function ButtonLabel(isGenerating: bool): (text: string)
    ensures text == "Generating..." <==> isGenerating
  {
    if isGenerating then "Generating..." else "Generate"
  }

  /** The two sections' buttons read alike exactly while generating. */
  lemma LabelsDifferWhenIdle(isGenerating: bool)
    ensures ButtonLabel(isGenerating) == HeroSection.ButtonLabel(isGenerating) <==> isGenerating
  {
    if !isGenerating {
      assert |ButtonLabel(false)| != |HeroSection.ButtonLabel(false)|;
    }
  }

  /** An enabled button generates with the text as typed; a blank query keeps
      the button disabled and never reaches onGenerate. */
  lemma EnabledButtonGenerates(isGenerating: bool, query: string)
    ensures !HeroSection.Disabled(isGenerating, query) ==> HeroSection.Submit(query) == Some(query)
    ensures HeroSection.Submit(query).None? ==> HeroSection.Disabled(isGenerating, query) && IsBlank(query)
  {
  }
}
