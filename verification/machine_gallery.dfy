/**
  The example gallery: six example machines shown as cards. Hovering a card
  marks it; clicking a card opens the gallery modal with a record built from
  the example; the card's "Try This Machine" button passes the example's name
  to the parent's `onSelectExample` callback.

  The button sits inside the clickable card and does not stop the click from
  propagating, so a click on it also reaches the card: the modal opens as well.
 */
module MachineGallery {
  import opened Js
  import opened MachineSpecsPanel

  datatype Example = Example(id: string, name: string, description: string, category: string)

  const Examples: seq<Example> := [
    Example("1", "Industrial Robotic Arm", "6-axis precision manipulation system", "Robotics"),
    Example("2", "Autonomous Drone", "AI-powered quadcopter with sensors", "Aviation"),
    Example("3", "3D Printer", "High-resolution additive manufacturing", "Manufacturing"),
    Example("4", "CNC Mill", "Multi-axis subtractive machining", "Manufacturing"),
    Example("5", "Conveyor System", "Automated material transport", "Logistics"),
    Example("6", "Assembly Robot", "Collaborative manufacturing assistant", "Automation")
  ]

  /** The six ids are distinct, so hover marks at most one card. */
  lemma ExampleIdsDistinct()
    ensures forall i, j :: 0 <= i < j < |Examples| ==> Examples[i].id != Examples[j].id
  {
  }

  /** The record the modal shows. */
  datatype Selected = Selected(name: string, kind: MachineKind, description: string, tags: seq<string>)

  /** handleMachineClick's record: a drone exactly when the lower-cased name
      contains "drone", else a robot; the category then two fixed tags. */
  function Record(m: Example): (r: Selected)
    ensures r.kind == Drone <==> Includes(ToLower(m.name), "drone")
    ensures r.name == m.name && r.description == m.description
    ensures r.tags == [m.category, "AI-Generated", "Industrial"]
  {
    Selected(m.name, if Includes(ToLower(m.name), "drone") then Drone else Robot,
             m.description, [m.category, "AI-Generated", "Industrial"])
  }

  /** The drone example is recorded as a drone, whatever the case of its name. */
  lemma DroneExampleIsDrone()
    ensures Record(Examples[1]).kind == Drone
  {
    var lower := ToLower(Examples[1].name);
    assert lower[11..16] == "drone";
    assert OccursAt(lower, "drone", 11);
  }

  /** A name is a drone exactly when its lower case is: upper-case letters in
      the name do not change the kind. */
  lemma KindIgnoresCase(m: Example, n: Example)
    requires ToLower(m.name) == ToLower(n.name)
    ensures Record(m).kind == Record(n).kind
  {
  }

  class Gallery {
    var hoveredId: Option<string>
    var selected: Option<Selected>

    constructor ()
      ensures hoveredId == None && selected == None
    {
      hoveredId := None;
      selected := None;
    }

    method HoverStart(k: nat)
      requires k < |Examples|
      modifies this
      ensures hoveredId == Some(Examples[k].id) && selected == old(selected)
    {
      hoveredId := Some(Examples[k].id);
    }

    method HoverEnd()
      modifies this
      ensures hoveredId == None && selected == old(selected)
    {
      hoveredId := None;
    }

    /** A click on card k opens the modal on that example's record. */
    method CardClick(k: nat)
      requires k < |Examples|
      modifies this
      ensures selected == Some(Record(Examples[k])) && hoveredId == old(hoveredId)
      ensures ModalOpen()
    {
      selected := Some(Record(Examples[k]));
    }

    /** A click on card k's button: onSelectExample gets the example's name,
        then the click reaches the card, which opens the modal. */
    method TryClick(k: nat) returns (query: string)
      requires k < |Examples|
      modifies this
      ensures query == Examples[k].name
      ensures selected == Some(Record(Examples[k])) && hoveredId == old(hoveredId)
    {
      query := Examples[k].name;
      CardClick(k);
    }

    /** The modal's onClose. */
    method CloseModal()
      modifies this
      ensures selected == None && hoveredId == old(hoveredId)
      ensures !ModalOpen()
    {
      selected := None;
    }

    /** `isOpen={!!selectedMachine}`. */
    function ModalOpen(): (open: bool)
      reads this
      ensures open <==> selected.Some?
    {
      selected.Some?
    }

    /** Card k shows its hover animation exactly when it is the hovered one. */
    function Hovered(k: nat): (h: bool)
      requires k < |Examples|
      reads this
      ensures h <==> hoveredId == Some(Examples[k].id)
    {
      hoveredId == Some(Examples[k].id)
    }
  }

  /** At most one card is hovered at a time. */
  lemma AtMostOneHovered(hoveredId: Option<string>, i: nat, j: nat)
    requires i < |Examples| && j < |Examples|
    requires hoveredId == Some(Examples[i].id) && hoveredId == Some(Examples[j].id)
    ensures i == j
  {
    ExampleIdsDistinct();
  }
}
