/**
  The floating AI status badge: nothing while idle; while processing or once
  complete, a badge styled by a per-status configuration, a status label, the
  optional message, and a pulsing dot only while processing.
 */
module AIStatusIndicator {
  import opened Js

  datatype Status = Idle | Processing | Complete

  datatype IconName = Brain | CheckCircle

  /** The styling record of a visible status. */
  datatype Config = Config(icon: IconName, color: string, gradient: string, bgColor: string, borderColor: string)

  const ProcessingConfig: Config :=
    Config(Brain, "cyan", "from-cyan-400 to-blue-500", "bg-cyan-400/10", "border-cyan-400/30")

  const CompleteConfig: Config :=
    Config(CheckCircle, "green", "from-green-400 to-emerald-500", "bg-green-400/10", "border-green-400/30")

  /** The rendered badge. */
  datatype Badge = Badge(config: Config, title: string, message: Option<string>, pulse: bool)

  /** `{message && ...}`: only a non-empty message is shown. */
  function MessageLine(message: Option<string>): (line: Option<string>)
    ensures line.Some? <==> message.Some? && message.value != ""
    ensures line.Some? ==> line == message
  {
    if message.Some? && message.value != "" then message else None
  }

  /** Nothing when idle; otherwise the status's config and label, the
      message line iff a message is given, the pulse iff processing. */
  function Render(status: Status, message: Option<string>): (b: Option<Badge>)
    ensures b.None? <==> status == Idle
    ensures status == Processing ==>
      b.Some? && b.value.config == ProcessingConfig && b.value.title == "AI Processing"
    ensures status == Complete ==>
      b.Some? && b.value.config == CompleteConfig && b.value.title == "Complete"
    ensures b.Some? ==> b.value.message == MessageLine(message)
    ensures b.Some? ==> (b.value.pulse <==> status == Processing)
  {
    match status
    case Idle => None
    case Processing => Some(Badge(ProcessingConfig, "AI Processing", MessageLine(message), true))
    case Complete => Some(Badge(CompleteConfig, "Complete", MessageLine(message), false))
  }

  /** The two visible statuses are told apart by every part of the badge:
      icon, colour, label and pulse. */
  lemma VisibleStatusesDistinct(message: Option<string>)
    ensures var p := Render(Processing, message).value;
            var c := Render(Complete, message).value;
            p.config.icon != c.config.icon && p.config.color != c.config.color &&
            p.title != c.title && p.pulse != c.pulse
  {
    assert "cyan"[0] != "green"[0];
    assert |"AI Processing"| != |"Complete"|;
  }

  /** The status can be read back from any rendered badge. */
  function StatusOf(b: Badge): Status
  {
    if b.pulse then Processing else Complete
  }

  lemma StatusRoundTrip(status: Status, message: Option<string>)
    requires status != Idle
    ensures StatusOf(Render(status, message).value) == status
  {
  }
}
