/** The `useTooltip` hook of `src/hooks/use-tooltip.ts`: one tooltip record
    that the area and container handlers replace or update field by field.
    Each handler is given as a function on the record (its specification) and
    as a method of `TooltipState` that updates the hook's state with it. */
module TooltipHook {
  import opened Geometry

  /** The `Tooltip` record consumed by the tooltip display. */
  datatype Tooltip = Tooltip(visible: bool, x: real, y: real, text: string)

  /** The fields of a map area the tooltip reads; `title` is optional. */
  datatype TooltipArea = TooltipArea(id: string, title: Option<string>)

  /** Offsets that keep the tooltip from covering the cursor. */
  const OFFSET_X: real := 10.0
  const OFFSET_Y: real := -60.0

  /** The initial record, and the one `handleMouseLeave` restores. */
  const HIDDEN: Tooltip := Tooltip(false, 0.0, 0.0, "")

  /** `area.title || area.id`: the title unless it is missing or empty. */
  function DisplayText(area: TooltipArea): (text: string)
    ensures area.title.Some? && area.title.value != "" ==> text == area.title.value
    ensures area.title.None? || area.title.value == "" ==> text == area.id
  {
    if area.title.Some? && area.title.value != "" then area.title.value else area.id
  }

  /** `handleMouseEnter`: shows the tooltip with the area's label and keeps
      its position. */
  function MouseEnter(t: Tooltip, area: TooltipArea): (r: Tooltip)
    ensures r.visible && r.text == DisplayText(area)
    ensures r.x == t.x && r.y == t.y
  {
    t.(visible := true, text := DisplayText(area))
  }

  /** `handleContainerMouseMove`: while the tooltip is visible, places it at
      the pointer relative to the container, shifted by the offsets; never
      touches `visible` or `text`, and does nothing while hidden. */
  function ContainerMouseMove(t: Tooltip, clientX: real, clientY: real, rect: Rect): (r: Tooltip)
    ensures r.visible == t.visible && r.text == t.text
    ensures !t.visible ==> r == t
    ensures t.visible ==> r.x == clientX - rect.left + OFFSET_X && r.y == clientY - rect.top + OFFSET_Y
  {
    if t.visible then
      var p := Relative(clientX, clientY, rect);
      t.(x := p.x + OFFSET_X, y := p.y + OFFSET_Y)
    else t
  }

  /** The events the hook reacts to. `TooltipMouseMove` is
      `handleTooltipMouseMove`, which only logs. */
  datatype TooltipEvent =
    | AreaMouseEnter(area: TooltipArea)
    | AreaMouseLeave
    | ContainerMove(clientX: real, clientY: real, rect: Rect)
    | TooltipMouseMove

  /** A hidden tooltip sits at the origin with no text. */
  ghost predicate HiddenIsReset(t: Tooltip)
  {
    !t.visible ==> t.x == 0.0 && t.y == 0.0 && t.text == ""
  }

  /** One handler call. Leaving resets to the initial record; the tooltip's
      own move handler changes nothing. */
  function Step(t: Tooltip, e: TooltipEvent): (r: Tooltip)
    ensures e.AreaMouseLeave? ==> r == HIDDEN
    ensures e.TooltipMouseMove? ==> r == t
    ensures HiddenIsReset(t) ==> HiddenIsReset(r)
  {
    match e
    case AreaMouseEnter(area) => MouseEnter(t, area)
    case AreaMouseLeave => HIDDEN
    case ContainerMove(clientX, clientY, rect) => ContainerMouseMove(t, clientX, clientY, rect)
    case TooltipMouseMove => t
  }

  /** The record after a sequence of handler calls, in order. */
  function Run(t: Tooltip, events: seq<TooltipEvent>): Tooltip
    decreases |events|
  {
    if events == [] then t else Run(Step(t, events[0]), events[1..])
  }

  /** Leaving twice is the same as leaving once. */
  lemma MouseLeaveIdempotent(t: Tooltip)
    ensures Run(t, [AreaMouseLeave, AreaMouseLeave]) == Run(t, [AreaMouseLeave])
  {
    assert [AreaMouseLeave, AreaMouseLeave][1..] == [AreaMouseLeave];
  }

  /** Over every sequence of handler calls from the initial record, a hidden
      tooltip is at the origin with no text. */
  lemma {:induction false} RunKeepsHiddenReset(t: Tooltip, events: seq<TooltipEvent>)
    requires HiddenIsReset(t)
    ensures HiddenIsReset(Run(t, events))
    decreases |events|
  {
    if events != [] {
      RunKeepsHiddenReset(Step(t, events[0]), events[1..]);
    }
  }

  /** Running two sequences one after the other is running their
      concatenation. */
  lemma {:induction false} RunAppend(t: Tooltip, first: seq<TooltipEvent>, second: seq<TooltipEvent>)
    ensures Run(t, first + second) == Run(Run(t, first), second)
    decreases |first|
  {
    if first == [] {
      assert first + second == second;
    } else {
      assert (first + second)[0] == first[0];
      assert (first + second)[1..] == first[1..] + second;
      RunAppend(Step(t, first[0]), first[1..], second);
    }
  }

  /** A mouse-leave forgets the history: whatever happened before it, the
      events after it act on the initial record. */
  lemma LeaveForgetsHistory(t: Tooltip, before: seq<TooltipEvent>, after: seq<TooltipEvent>)
    ensures Run(t, before + [AreaMouseLeave] + after) == Run(HIDDEN, after)
  {
    RunAppend(t, before + [AreaMouseLeave], after);
    RunAppend(t, before, [AreaMouseLeave]);
    assert [AreaMouseLeave][1..] == [];
  }

  /** The state of one `useTooltip` instance. */
  class TooltipState {
    var tooltip: Tooltip

    ghost predicate Valid()
      reads this
    {
      HiddenIsReset(tooltip)
    }

    constructor ()
      ensures Valid() && tooltip == HIDDEN
    {
      tooltip := HIDDEN;
    }

    method HandleMouseEnter(area: TooltipArea)
      requires Valid()
      modifies this
      ensures Valid()
      ensures tooltip == MouseEnter(old(tooltip), area)
    {
      tooltip := MouseEnter(tooltip, area);
    }

    method HandleMouseLeave()
      requires Valid()
      modifies this
      ensures Valid() && tooltip == HIDDEN
    {
      tooltip := HIDDEN;
    }

    method HandleContainerMouseMove(clientX: real, clientY: real, rect: Rect)
      requires Valid()
      modifies this
      ensures Valid()
      ensures tooltip == ContainerMouseMove(old(tooltip), clientX, clientY, rect)
    {
      tooltip := ContainerMouseMove(tooltip, clientX, clientY, rect);
    }

    /** Dispatches one event to its handler; `handleTooltipMouseMove` only
        logs, so its event changes nothing. */
    method Handle(e: TooltipEvent)
      requires Valid()
      modifies this
      ensures Valid()
      ensures tooltip == Step(old(tooltip), e)
    {
      match e
      case AreaMouseEnter(area) => HandleMouseEnter(area);
      case AreaMouseLeave => HandleMouseLeave();
      case ContainerMove(clientX, clientY, rect) => HandleContainerMouseMove(clientX, clientY, rect);
      case TooltipMouseMove =>
    }
  }
}
