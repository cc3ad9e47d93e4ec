/**
  The machine specification panel: a placeholder until a machine exists,
  then the machine's name and type badge, five machine-type tabs, and three
  collapsible sections (description, specifications, assembly) of which at
  most one is open.

  The machine record and the `onChangeType` callback are the parent's props:
  the record is a parameter of Render, and a tab click returns the category
  it passes to the callback.
 */
module MachineSpecsPanel {
  import opened Js

  datatype MachineKind = Robot | Drone

  datatype MachineData = MachineData(
    kind: MachineKind,
    name: string,
    description: string,
    specifications: seq<string>,
    assembly: seq<string>)

  // ---------------------------------------------------------------------------
  // The single-open accordion
  // ---------------------------------------------------------------------------

  /** `expandedSection === section ? null : section`: clicking the open
      section closes it; clicking another opens it and closes the previous. */
  function ToggleSection(expanded: Option<string>, section: string): (r: Option<string>)
    ensures r == Some(section) <==> expanded != Some(section)
    ensures r == None <==> expanded == Some(section)
    ensures forall other :: other != section ==> r != Some(other)
  {
    if expanded == Some(section) then None else Some(section)
  }

  /** Two clicks on the same section restore the state only if that section
      was open or nothing was; starting from another open section, they end
      with all collapsed. */
  lemma ToggleTwice(expanded: Option<string>, section: string)
    ensures expanded == None || expanded == Some(section) ==>
      ToggleSection(ToggleSection(expanded, section), section) == expanded
    ensures expanded.Some? && expanded != Some(section) ==>
      ToggleSection(ToggleSection(expanded, section), section) == None
  {
  }

  /** Steps shown with their 1-based number, in list order. */
  function NumberedSteps(steps: seq<string>): (r: seq<(nat, string)>)
    ensures |r| == |steps|
    ensures forall i :: 0 <= i < |steps| ==> r[i] == (i + 1, steps[i])
  {
    seq(|steps|, i requires 0 <= i < |steps| => (i + 1, steps[i]))
  }

  /** The numbers run 1, 2, ..., n without gaps or repeats. */
  lemma StepNumbersConsecutive(steps: seq<string>, i: nat)
    requires 0 < i < |steps|
    ensures NumberedSteps(steps)[i].0 == NumberedSteps(steps)[i - 1].0 + 1
    ensures NumberedSteps(steps)[0].0 == 1
  {
  }

  // ---------------------------------------------------------------------------
  // Badge and tabs
  // ---------------------------------------------------------------------------

  function Badge(kind: MachineKind): (b: string)
    ensures b == "Robotic System" <==> kind == Robot
    ensures b == "Aerial Vehicle" <==> kind == Drone
  {
    match kind
    case Robot => assert "Robotic System"[0] != "Aerial Vehicle"[0]; "Robotic System"
    case Drone => assert "Robotic System"[0] != "Aerial Vehicle"[0]; "Aerial Vehicle"
  }

  /** The five tabs, in order; each passes its own category to onChangeType. */
  const Categories: seq<string> := ["industrial", "robotics", "automotive", "aerospace", "custom"]

  function TabClick(k: nat): (category: string)
    requires k < |Categories|
    ensures category in Categories && category == Categories[k]
    ensures forall j :: 0 <= j < |Categories| && j != k ==> category != Categories[j]
  {
    Categories[k]
  }

  // ---------------------------------------------------------------------------
  // Rendering
  // ---------------------------------------------------------------------------

  const SectionIds: seq<string> := ["description", "specifications", "assembly"]

  datatype Body = DescriptionBody(text: string) | SpecList(specs: seq<string>) | StepList(steps: seq<(nat, string)>)

  /** A section header, and its body when it is the open one. */
  datatype Section = Section(id: string, body: Option<Body>)

  datatype View =
    | Placeholder
    | Details(name: string, badge: string, tabs: seq<string>, sections: seq<Section>)

  function SectionBody(id: string, data: MachineData): (b: Body)
    ensures b.DescriptionBody? <==> id == "description"
    ensures b.SpecList? <==> id == "specifications"
    ensures b.DescriptionBody? ==> b.text == data.description
    ensures b.SpecList? ==> b.specs == data.specifications
    ensures b.StepList? ==> b.steps == NumberedSteps(data.assembly)
  {
    if id == "description" then DescriptionBody(data.description)
    else if id == "specifications" then SpecList(data.specifications)
    else StepList(NumberedSteps(data.assembly))
  }

  class Panel {
    var expandedSection: Option<string>

    constructor ()
      ensures expandedSection == Some("description")
    {
      expandedSection := Some("description");
    }

    method Toggle(section: string)
      modifies this
      ensures expandedSection == ToggleSection(old(expandedSection), section)
    {
      expandedSection := ToggleSection(expandedSection, section);
    }

    /** No machine: only the placeholder. Otherwise the header, the tabs and
        the three sections, with a body for the expanded one only. */
    function Render(data: Option<MachineData>): (v: View)
      reads this
      ensures v.Placeholder? <==> data.None?
      ensures v.Details? ==>
        v.name == data.value.name && v.badge == Badge(data.value.kind) && v.tabs == Categories &&
        |v.sections| == |SectionIds| &&
        forall i :: 0 <= i < |SectionIds| ==>
          v.sections[i].id == SectionIds[i] &&
          (v.sections[i].body.Some? <==> expandedSection == Some(SectionIds[i])) &&
          (v.sections[i].body.Some? ==> v.sections[i].body.value == SectionBody(SectionIds[i], data.value))
    {
      if data.None? then Placeholder
      else
        var open := expandedSection;
        var m := data.value;
        Details(m.name, Badge(m.kind), Categories,
          seq(|SectionIds|, i requires 0 <= i < |SectionIds| =>
            Section(SectionIds[i],
              if open == Some(SectionIds[i]) then Some(SectionBody(SectionIds[i], m)) else None)))
    }
  }

  /** At most one section body is rendered. */
  lemma AtMostOneOpen(v: View, expanded: Option<string>, i: nat, j: nat)
    requires v.Details? && |v.sections| == |SectionIds| && i < |SectionIds| && j < |SectionIds|
    requires forall k :: 0 <= k < |SectionIds| ==>
      (v.sections[k].body.Some? <==> expanded == Some(SectionIds[k]))
    requires v.sections[i].body.Some? && v.sections[j].body.Some?
    ensures i == j
  {
    assert SectionIds[i] == SectionIds[j];
  }
}
