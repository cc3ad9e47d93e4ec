/**
  The machine preview section: hidden until there is a machine or a
  generation in progress; a canvas, a loading overlay while generating, and
  once a machine is ready an info panel with overview, specification and
  assembly tabs.

  `isGenerating` and the machine record are the parent's props and are
  parameters of Render.
 */
module MachineDisplay {
  import opened Js
  import opened MachineSpecsPanel

  /** The record as this component receives it: its type may be null. */
  datatype DisplayData = DisplayData(
    kind: Option<MachineKind>,
    name: string,
    description: string,
    specifications: seq<string>,
    assembly: seq<string>)

  /** `machineData?.type || null`: the record's type, or null without a record. */
  function CanvasType(data: Option<DisplayData>): (t: Option<MachineKind>)
    ensures data.None? ==> t.None?
    ensures data.Some? ==> t == data.value.kind
  {
    match data
    case None => None
    case Some(d) => d.kind
  }

  /** The toast of an export button. */
  function ExportToast(format: string): (text: string)
  {
    "Exporting as " + format + "..."
  }

  /** The ready machine's panel. */
  datatype Info = Info(
    name: string,
    description: string,
    kind: Option<MachineKind>,
    components: nat,
    steps: nat,
    activeTab: string,
    specList: seq<string>,
    stepList: seq<(nat, string)>)

  datatype Screen = Screen(canvasLoading: bool, canvasType: Option<MachineKind>, overlay: bool, info: Option<Info>)

  class Display {
    /** The legacy accordion state; its sections are no longer rendered. */
    var expandedSection: Option<string>
    var activeTab: string

    constructor ()
      ensures expandedSection == None && activeTab == "overview"
    {
      expandedSection := None;
      activeTab := "overview";
    }

    /** toggleSection, with the single-open rule shared with the specs panel. */
    method Toggle(section: string)
      modifies this
      ensures expandedSection == ToggleSection(old(expandedSection), section)
      ensures activeTab == old(activeTab)
    {
      expandedSection := ToggleSection(expandedSection, section);
    }

    /** The tab list's onValueChange. */
    method SelectTab(tab: string)
      modifies this
      ensures activeTab == tab && expandedSection == old(expandedSection)
    {
      activeTab := tab;
    }

    /** Nothing without a record unless generating; the overlay exactly while
        generating; the info panel exactly with a record and not generating,
        counting the record's specifications and steps and numbering the steps. */
    function Render(isGenerating: bool, data: Option<DisplayData>): (r: Option<Screen>)
      reads this
      ensures r.None? <==> data.None? && !isGenerating
      ensures r.Some? ==>
        r.value.canvasLoading == isGenerating &&
        r.value.canvasType == CanvasType(data) &&
        r.value.overlay == isGenerating &&
        (r.value.info.Some? <==> data.Some? && !isGenerating)
      ensures r.Some? && r.value.info.Some? ==>
        var i := r.value.info.value;
        i.components == |data.value.specifications| && i.steps == |data.value.assembly| &&
        i.name == data.value.name && i.description == data.value.description &&
        i.kind == data.value.kind &&
        i.activeTab == activeTab && i.specList == data.value.specifications &&
        i.stepList == NumberedSteps(data.value.assembly)
    {
      if data.None? && !isGenerating then None
      else
        var info :=
          if data.Some? && !isGenerating then
            var d := data.value;
            Some(Info(d.name, d.description, d.kind, |d.specifications|, |d.assembly|, activeTab,
                      d.specifications, NumberedSteps(d.assembly)))
          else None;
        Some(Screen(isGenerating, CanvasType(data), isGenerating, info))
    }
  }

  /** The step count shown in the overview equals the number of numbered
      steps in the assembly tab, and the last step's number is that count. */
  lemma StepCountMatchesNumbering(d: DisplayData)
    requires |d.assembly| > 0
    ensures NumberedSteps(d.assembly)[|d.assembly| - 1].0 == |d.assembly|
  {
  }
}
