/** The toolbar: tool buttons and their style presets, colour and width
    pickers, zoom buttons, and the toggled dropdown of the narrow layout. */
module Toolbar {
  import opened Types

  const MIN_SCALE: real := 0.5
  const MAX_SCALE: real := 3.0
  const ZOOM_STEP: real := 0.1

  /** The colours and widths the pickers offer. */
  const COLORS: seq<string> :=
    ["#ef4444", "#f59e0b", "#eab308", "#22c55e", "#3b82f6", "#a855f7", "#000000", "#ffffff"]
  const WIDTHS: seq<real> := [2.0, 5.0, 10.0, 20.0, 40.0]

  /** Preset applied by the Highlight button. */
  const HIGHLIGHT_PRESET: ToolSettings := ToolSettings("#eab308", 20.0, 0.4)
  /** Preset applied by the Pen button. */
  const PEN_PRESET: ToolSettings := ToolSettings("#ef4444", 2.0, 1.0)

  datatype ToolButton = MoveButton | RevealKeyButton | HighlightButton | PenButton | EraserButton

  /** The tool a button selects. */
  function ButtonTool(b: ToolButton): ToolType
  {
    match b
    case MoveButton => NoTool
    case RevealKeyButton => SelectCorrection
    case HighlightButton => Highlight
    case PenButton => Draw
    case EraserButton => Eraser
  }

  datatype Selection = Selection(tool: ToolType, settings: ToolSettings)

  /** Pressing a tool button: the tool it names, and for the two pens their preset;
      the other buttons leave the settings alone. */
  function Press(b: ToolButton, settings: ToolSettings): (r: Selection)
    ensures r.tool == ButtonTool(b)
    ensures IsPen(r.tool) <==> b == HighlightButton || b == PenButton
    ensures !IsPen(r.tool) ==> r.settings == settings
    ensures IsPen(r.tool) ==> r.settings.color in COLORS && r.settings.width in WIDTHS
    ensures b == HighlightButton ==> r.settings == ToolSettings("#eab308", 20.0, 0.4)
    ensures b == PenButton ==> r.settings == ToolSettings("#ef4444", 2.0, 1.0)
  {
    match b
    case HighlightButton => Selection(Highlight, HIGHLIGHT_PRESET)
    case PenButton => Selection(Draw, PEN_PRESET)
    case _ => Selection(ButtonTool(b), settings)
  }

  /** The colour picker changes the colour only. */
  function WithColor(settings: ToolSettings, c: string): (r: ToolSettings)
    ensures r.color == c && r.width == settings.width && r.opacity == settings.opacity
  {
    settings.(color := c)
  }

  /** The width picker changes the width only. */
  function WithWidth(settings: ToolSettings, w: real): (r: ToolSettings)
    ensures r.width == w && r.color == settings.color && r.opacity == settings.opacity
  {
    settings.(width := w)
  }

  /** Zoom out by one step, never below MIN_SCALE. */
  function ZoomOut(scale: real): (r: real)
    ensures r >= MIN_SCALE
    ensures scale - ZOOM_STEP >= MIN_SCALE ==> r == scale - ZOOM_STEP
    ensures scale - ZOOM_STEP < MIN_SCALE ==> r == MIN_SCALE
  {
    if MIN_SCALE < scale - ZOOM_STEP then scale - ZOOM_STEP else MIN_SCALE
  }

  /** Zoom in by one step, never above MAX_SCALE. */
  function ZoomIn(scale: real): (r: real)
    ensures r <= MAX_SCALE
    ensures scale + ZOOM_STEP <= MAX_SCALE ==> r == scale + ZOOM_STEP
    ensures scale + ZOOM_STEP > MAX_SCALE ==> r == MAX_SCALE
  {
    if scale + ZOOM_STEP < MAX_SCALE then scale + ZOOM_STEP else MAX_SCALE
  }

  /** Both zoom buttons keep a scale in [MIN_SCALE, MAX_SCALE] there. */
  lemma ZoomStaysInRange(scale: real)
    requires MIN_SCALE <= scale <= MAX_SCALE
    ensures MIN_SCALE <= ZoomIn(scale) <= MAX_SCALE
    ensures MIN_SCALE <= ZoomOut(scale) <= MAX_SCALE
  {
  }

  /** The inline colour and width pickers are rendered only for the two pen tools. */
  predicate InlinePickersShown(tool: ToolType)
  {
    tool == Draw || tool == Highlight
  }

  /** The inline pickers appear after Highlight or Pen and disappear after any other button. */
  lemma PickersFollowButton(b: ToolButton, settings: ToolSettings)
    ensures InlinePickersShown(Press(b, settings).tool) <==> b == HighlightButton || b == PenButton
  {
  }

  datatype DropdownKind = ColorMenu | SizeMenu

  /** The dropdown of the narrow layout (its pixel position is not modelled). */
  class DropdownMenu {
    var active: Option<DropdownKind>

    constructor ()
      ensures active == None
    {
      active := None;
    }

    /** A trigger closes its own open menu and otherwise opens its menu. */
    method Trigger(kind: DropdownKind)
      modifies this
      ensures old(active) == Some(kind) ==> active == None
      ensures old(active) != Some(kind) ==> active == Some(kind)
    {
      if active == Some(kind) {
        active := None;
      } else {
        active := Some(kind);
      }
    }

    /** Resize, scroll, a click on the backdrop or a pick close the menu. */
    method Dismiss()
      modifies this
      ensures active == None
    {
      active := None;
    }
  }
}
