/**
  The command palette: a fixed table of five commands, a case-insensitive
  filter over it, a selection cursor moved with the arrow keys, and the
  Enter / Escape / click rules that run a command and ask the parent to close.

  The palette does not close itself: it calls the parent's onClose, and the
  parent later changes the isOpen property (SetOpen here).
 */
module CommandPalette {
  import opened Js

  datatype Command = Command(id: string, title: string, description: string)

  /** The command table, in display order (icons and gradients left out). */
  const Commands: seq<Command> := [
    Command("generate-robot", "Generate Robotic Arm", "Create an industrial robotic arm"),
    Command("generate-drone", "Generate Drone", "Create an autonomous drone"),
    Command("export-stl", "Export as STL", "Download 3D model in STL format"),
    Command("settings", "Open Settings", "Adjust preferences and options"),
    Command("docs", "Documentation", "View guides and tutorials")
  ]

  /** The filter's test: the lower-cased title or description contains the lower-cased search. */
  predicate Matches(c: Command, search: string)
    ensures search == "" ==> Matches(c, search)
  {
    IncludesEmpty(ToLower(c.title));
    Includes(ToLower(c.title), ToLower(search)) || Includes(ToLower(c.description), ToLower(search))
  }

  /** commands.filter(...): the order-preserving selection of the matching commands. */
  function FilterCommands(cmds: seq<Command>, search: string): (r: seq<Command>)
    ensures IsSubsequence(r, cmds)
    ensures forall c :: c in r ==> c in cmds && Matches(c, search)
    ensures forall c :: c in cmds && Matches(c, search) ==> c in r
    ensures |r| <= |cmds|
  {
    if cmds == [] then []
    else if Matches(cmds[0], search) then [cmds[0]] + FilterCommands(cmds[1..], search)
    else FilterCommands(cmds[1..], search)
  }

  /** The commands shown for a given search text. */
  function Filtered(search: string): (r: seq<Command>)
    ensures IsSubsequence(r, Commands) && |r| <= |Commands|
    ensures forall c :: c in r <==> c in Commands && Matches(c, search)
  {
    FilterCommands(Commands, search)
  }

  /** An empty search keeps all five commands, in table order. */
  lemma {:induction false} EmptySearchKeepsAll()
    ensures Filtered("") == Commands
    ensures |Filtered("")| == 5
  {
    forall c | c in Commands ensures Matches(c, "") {
      IncludesEmpty(ToLower(c.title));
    }
    KeepAllWhenAllMatch(Commands, "");
  }

  lemma {:induction false} KeepAllWhenAllMatch(cmds: seq<Command>, search: string)
    requires forall c :: c in cmds ==> Matches(c, search)
    ensures FilterCommands(cmds, search) == cmds
  {
    if cmds != [] {
      KeepAllWhenAllMatch(cmds[1..], search);
    }
  }

  /** Lower-casing the search makes no difference: the filter is case-insensitive. */
  lemma SearchCaseInsensitive(search: string)
    ensures Filtered(ToLower(search)) == Filtered(search)
  {
    ToLowerIdempotent(search);
    SameMatchesSameFilter(Commands, ToLower(search), search);
  }

  lemma {:induction false} SameMatchesSameFilter(cmds: seq<Command>, s1: string, s2: string)
    requires ToLower(s1) == ToLower(s2)
    ensures FilterCommands(cmds, s1) == FilterCommands(cmds, s2)
  {
    if cmds != [] {
      SameMatchesSameFilter(cmds[1..], s1, s2);
    }
  }

  // ---------------------------------------------------------------------------
  // The selection cursor
  // ---------------------------------------------------------------------------

  /** selectedIndex is a JavaScript number; `x % 0` makes it NaN. */
  datatype Cursor = At(index: int) | NaN

  /** JavaScript's `%`: the remainder takes the sign of the dividend. */
  function JsRem(a: int, n: int): (r: int)
    requires n != 0
    ensures a >= 0 && n > 0 ==> 0 <= r < n && r == a % n
  {
    if a >= 0 then a % (if n > 0 then n else -n)
    else -((-a) % (if n > 0 then n else -n))
  }

  /** ArrowDown: `(prev + 1) % filteredCommands.length`. */
  function MoveDown(c: Cursor, n: nat): (r: Cursor)
    ensures n == 0 || c.NaN? ==> r == NaN
    ensures n > 0 && c.At? && 0 <= c.index < n ==> r.At? && 0 <= r.index < n
    ensures n > 0 && c == At(n - 1) ==> r == At(0)
  {
    if n == 0 then NaN
    else match c
      case At(i) => At(JsRem(i + 1, n))
      case NaN => NaN
  }

  /** ArrowUp: `(prev - 1 + filteredCommands.length) % filteredCommands.length`. */
  function MoveUp(c: Cursor, n: nat): (r: Cursor)
    ensures n == 0 || c.NaN? ==> r == NaN
    ensures n > 0 && c.At? && 0 <= c.index < n ==> r.At? && 0 <= r.index < n
    ensures n > 0 && c == At(0) ==> r == At(n - 1)
  {
    if n == 0 then NaN
    else match c
      case At(i) => At(JsRem(i - 1 + n, n))
      case NaN => NaN
  }

  /** Euclidean remainder of a number already in [0, n). */
  lemma ModOfSmall(a: int, n: int)
    requires 0 <= a < n
    ensures a % n == a
  {
  }

  /** Euclidean remainder of a number in [n, 2n). */
  lemma ModOfOneMore(a: int, n: int)
    requires 0 < n <= a < 2 * n
    ensures a % n == a - n
  {
  }

  /** On a non-empty list the arrows wrap around and stay in range. */
  lemma ArrowsWrap(i: int, n: nat)
    requires 0 <= i < n
    ensures MoveDown(At(i), n) == At(if i == n - 1 then 0 else i + 1)
    ensures MoveUp(At(i), n) == At(if i == 0 then n - 1 else i - 1)
  {
    if i == n - 1 {
      ModOfOneMore(i + 1, n);
    } else {
      ModOfSmall(i + 1, n);
    }
    if i == 0 {
      ModOfSmall(n - 1, n);
    } else {
      ModOfOneMore(i - 1 + n, n);
    }
  }

  /** Down then Up, and Up then Down, come back to where the cursor was. */
  lemma ArrowsInverse(i: int, n: nat)
    requires 0 <= i < n
    ensures MoveUp(MoveDown(At(i), n), n) == At(i)
    ensures MoveDown(MoveUp(At(i), n), n) == At(i)
  {
    ArrowsWrap(i, n);
    var d := if i == n - 1 then 0 else i + 1;
    var u := if i == 0 then n - 1 else i - 1;
    ArrowsWrap(d, n);
    ArrowsWrap(u, n);
  }

  /** With nothing to select, either arrow makes the cursor NaN, and NaN stays NaN. */
  lemma ArrowsOnEmptyOrNaN(c: Cursor, n: nat)
    ensures n == 0 ==> MoveDown(c, n) == NaN && MoveUp(c, n) == NaN
    ensures MoveDown(NaN, n) == NaN && MoveUp(NaN, n) == NaN
  {
  }

  /** The cursor states reachable for a list of n commands: in range, or 0 on an
      empty list (just after a reset), or NaN on an empty list (after an arrow). */
  predicate CursorFits(c: Cursor, n: nat)
  {
    match c
    case At(i) => 0 <= i && (i < n || i == 0)
    case NaN => n == 0
  }

  /** Both arrows keep the cursor among the reachable states. */
  lemma ArrowsKeepFit(c: Cursor, n: nat)
    requires CursorFits(c, n)
    ensures CursorFits(MoveDown(c, n), n) && CursorFits(MoveUp(c, n), n)
  {
    if c.At? && n > 0 {
      ArrowsWrap(c.index, n);
    }
  }

  /** filteredCommands[selectedIndex], when it is defined. */
  function Selected(c: Cursor, cmds: seq<Command>): (r: Option<Command>)
    ensures r.Some? <==> (c.At? && 0 <= c.index < |cmds|)
    ensures r.Some? ==> r.value == cmds[c.index]
  {
    match c
    case At(i) => if 0 <= i < |cmds| then Some(cmds[i]) else None
    case NaN => None
  }

  datatype Key = ArrowDown | ArrowUp | Enter | Escape | OtherKey

  /** One rendered row: its command and whether it is highlighted. */
  datatype Row = Row(command: Command, highlighted: bool)

  class Palette {
    /** The isOpen property, set by the parent. */
    var isOpen: bool
    var search: string
    var selected: Cursor
    /** Whether the parent passed an onExecute callback. */
    const hasOnExecute: bool

    function Shown(): (r: seq<Command>)
      reads this
    {
      Filtered(search)
    }

    ghost predicate Valid()
      reads this
    {
      CursorFits(selected, |Shown()|)
    }

    /** Mounting: empty search, cursor at 0. */
    constructor (isOpen: bool, hasOnExecute: bool)
      ensures Valid()
      ensures this.isOpen == isOpen && this.hasOnExecute == hasOnExecute
      ensures search == "" && selected == At(0)
    {
      this.isOpen := isOpen;
      this.hasOnExecute := hasOnExecute;
      search := "";
      selected := At(0);
    }

    /** The parent changes isOpen; a change to open resets search and cursor. */
    method SetOpen(open: bool)
      requires Valid()
      modifies this
      ensures Valid()
      ensures isOpen == open
      ensures open && !old(isOpen) ==> search == "" && selected == At(0)
      ensures !(open && !old(isOpen)) ==> search == old(search) && selected == old(selected)
    {
      if open && !isOpen {
        search := "";
        selected := At(0);
      }
      isOpen := open;
    }

    /** Typing in the search box: the text replaces the search, the cursor goes to 0. */
    method EditSearch(text: string)
      requires Valid()
      modifies this
      ensures Valid()
      ensures search == text && selected == At(0) && isOpen == old(isOpen)
    {
      search := text;
      selected := At(0);
    }

    /** The window's keydown handler. Returns the command id passed to onExecute,
        if any, and whether onClose was called. */
    method KeyDown(key: Key) returns (executed: Option<string>, closeRequested: bool)
      requires Valid()
      modifies this
      ensures Valid()
      ensures isOpen == old(isOpen) && search == old(search)
      ensures !old(isOpen) ==> selected == old(selected) && executed == None && !closeRequested
      ensures old(isOpen) && key == ArrowDown ==>
        selected == MoveDown(old(selected), |Shown()|) && executed == None && !closeRequested
      ensures old(isOpen) && key == ArrowUp ==>
        selected == MoveUp(old(selected), |Shown()|) && executed == None && !closeRequested
      ensures old(isOpen) && key == Enter ==>
        selected == old(selected) &&
        closeRequested == Selected(selected, Shown()).Some? &&
        executed == (if hasOnExecute && closeRequested
                     then Some(Selected(selected, Shown()).value.id) else None)
      ensures old(isOpen) && key == Escape ==> selected == old(selected) && executed == None && closeRequested
      ensures old(isOpen) && key == OtherKey ==> selected == old(selected) && executed == None && !closeRequested
    {
      executed, closeRequested := None, false;
      if !isOpen {
        return;
      }
      var shown := Filtered(search);
      match key
      case ArrowDown =>
        ArrowsKeepFit(selected, |shown|);
        selected := MoveDown(selected, |shown|);
      case ArrowUp =>
        ArrowsKeepFit(selected, |shown|);
        selected := MoveUp(selected, |shown|);
      case Enter =>
        var target := Selected(selected, shown);
        if target.Some? {
          if hasOnExecute {
            executed := Some(target.value.id);
          }
          closeRequested := true;
        }
      case Escape =>
        closeRequested := true;
      case OtherKey =>
    }

    /** Clicking row k: runs that row's command and asks to close. */
    method ClickItem(k: nat) returns (executed: Option<string>, closeRequested: bool)
      requires Valid() && isOpen && k < |Shown()|
      ensures closeRequested
      ensures executed == (if hasOnExecute then Some(Shown()[k].id) else None)
    {
      var shown := Filtered(search);
      executed := if hasOnExecute then Some(shown[k].id) else None;
      closeRequested := true;
    }

    /** A click on the dimmed backdrop asks to close and runs nothing; a
        click inside the panel stops before it reaches the backdrop. */
    method BackdropClick() returns (executed: Option<string>, closeRequested: bool)
      requires isOpen
      ensures closeRequested && executed == None
    {
      executed, closeRequested := None, true;
    }

    /** What the palette renders: nothing while closed, else one row per
        matching command with exactly the cursor's row highlighted. */
    function Render(): (r: Option<seq<Row>>)
      reads this
      ensures r.None? <==> !isOpen
      ensures r.Some? ==> |r.value| == |Shown()|
      ensures r.Some? ==> forall k :: 0 <= k < |r.value| ==>
        r.value[k].command == Shown()[k] && (r.value[k].highlighted <==> selected == At(k))
    {
      if !isOpen then None
      else
        var shown, cursor := Filtered(search), selected;
        Some(seq(|shown|, k requires 0 <= k < |shown| => Row(shown[k], cursor == At(k))))
    }
  }

  /** At most one row is highlighted. */
  lemma AtMostOneHighlighted(p: Palette, rows: seq<Row>, j: nat, k: nat)
    requires p.Render() == Some(rows)
    requires j < |rows| && k < |rows| && rows[j].highlighted && rows[k].highlighted
    ensures j == k
  {
  }
}
