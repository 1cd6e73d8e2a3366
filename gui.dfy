/** The legacy settings panel: its hit tests, line layout, text format and `Gui` state (src/gui/mod.rs). */
module Guis {
  import opened Primitives
  import opened Constants
  import opened TextFormats

  /** A hitbox as its top-left and bottom-right corners. */
  type Box = (Vec2, Vec2)

  /** Lines of the panel are 26 pixels apart. */
  const LINE_HEIGHT: real := 26.0

  /** `get_line_position`: line `i` is drawn right-aligned against the screen edge. */
  function GetLinePosition(i: U32, size: Vec2): (p: Vec2)
    ensures p.x + size.x == SCREEN_WIDTH as real
    ensures p.y == LINE_HEIGHT * i as real
  {
    Vec2(SCREEN_WIDTH as real - size.x, i as real * 26.0)
  }

  /** Consecutive lines are one line height apart and share their left edge. */
  lemma LinesAreEvenlySpaced(i: U32, size: Vec2)
    requires i + 1 < U32_LIMIT
    ensures GetLinePosition(i + 1, size).y - GetLinePosition(i, size).y == LINE_HEIGHT
    ensures GetLinePosition(i + 1, size).x == GetLinePosition(i, size).x
  {
  }

  /** `hitbox_contains`: the position and the corners are truncated to `u32`, and every bound is inclusive. */
  function HitboxContains(hitbox: Box, pos: (real, real)): (r: bool)
    ensures r <==> (AsU32(hitbox.0.x) <= AsU32(pos.0) <= AsU32(hitbox.1.x)
                    && AsU32(hitbox.0.y) <= AsU32(pos.1) <= AsU32(hitbox.1.y))
    ensures AsU32(hitbox.1.x) < AsU32(hitbox.0.x) ==> !r
  {
    var x := AsU32(pos.0);
    var y := AsU32(pos.1);
    if x >= AsU32(hitbox.0.x) && x <= AsU32(hitbox.1.x) then
      y >= AsU32(hitbox.0.y) && y <= AsU32(hitbox.1.y)
    else
      false
  }

  /** A whole, non-negative coordinate within `u32`. */
  predicate WholeU32(r: real) {
    0.0 <= r < U32_LIMIT as real && r == r.Floor as real
  }

  /**
   * For a hitbox with whole corners, a click at a non-negative position
   * within `u32` is contained exactly when it lies between the corners, or
   * less than a pixel past the right or bottom corner.
   */
  lemma {:induction false} HitboxContainsRegion(hitbox: Box, pos: (real, real))
    requires WholeU32(hitbox.0.x) && WholeU32(hitbox.1.x) && WholeU32(hitbox.0.y) && WholeU32(hitbox.1.y)
    requires 0.0 <= pos.0 < U32_LIMIT as real && 0.0 <= pos.1 < U32_LIMIT as real
    ensures HitboxContains(hitbox, pos) <==>
      hitbox.0.x <= pos.0 < hitbox.1.x + 1.0 && hitbox.0.y <= pos.1 < hitbox.1.y + 1.0
  {
    WholeCast(hitbox.0.x);
    WholeCast(hitbox.1.x);
    WholeCast(hitbox.0.y);
    WholeCast(hitbox.1.y);
    InRangeCast(pos.0);
    InRangeCast(pos.1);
  }

  lemma WholeCast(r: real)
    requires WholeU32(r)
    ensures AsU32(r) as real == r
  {
  }

  lemma InRangeCast(r: real)
    requires 0.0 <= r < U32_LIMIT as real
    ensures AsU32(r) as real <= r < AsU32(r) as real + 1.0
  {
  }

  /** A click left of the screen saturates to column 0, so it lands in every hitbox that starts at column 0. */
  lemma NegativeClickSaturates(hitbox: Box, pos: (real, real))
    requires pos.0 < 0.0 && hitbox.0.x < 1.0 && 0.0 <= hitbox.1.x
    requires HitboxContains(hitbox, (0.0, pos.1))
    ensures HitboxContains(hitbox, pos)
  {
  }

  /** `TextFormat`; `f32` is modelled by `real`. */
  datatype TextFormat = TextFormat(size: Vec2, fontSize: real, fontColor: Rgba, backgroundColor: Rgba) {

    /** `TextFormat::get_spacer`, which panics on `usize` underflow when the text does not fit. */
    function GetSpacer(text: string, value: string): (s: string)
      requires |text| + |value| + 5 <= CharNum(size.x)
      ensures s == Spacer(size.x, text, value)
    {
      Spacer(size.x, text, value)
    }

    /** `TextFormat::get_axis_color` ignores the format. */
    function GetAxisColor(text: string): (c: Rgba)
      ensures c == AxisColor(text)
    {
      AxisColor(text)
    }
  }

  /** `TextFormat::default`: no size, 24-point white text on dark grey. */
  function DefaultTextFormat(): (t: TextFormat)
    ensures t.size == Vec2(0.0, 0.0) && t.fontSize == 24.0
    ensures t.fontColor == White && t.backgroundColor == Rgba(50, 50, 50, 255)
  {
    TextFormat(Vec2(0.0, 0.0), 24.0, White, Rgba(50, 50, 50, 255))
  }

  /** `TextFormat::new` stores its arguments, which the getters return. */
  function NewTextFormat(size: Vec2, fontSize: real, fontColor: Rgba, backgroundColor: Rgba): (t: TextFormat)
    ensures t.size == size && t.fontSize == fontSize
    ensures t.fontColor == fontColor && t.backgroundColor == backgroundColor
  {
    TextFormat(size, fontSize, fontColor, backgroundColor)
  }

  /** The legacy format pads and tints text exactly as a `Style` of the same width. */
  lemma TextFormatAgreesWithStyle(t: TextFormat, s: Style, text: string, value: string)
    requires t.size.x == s.size.x
    ensures t.GetAxisColor(text) == s.GetAxisColor(text)
    ensures |text| + |value| + 5 <= CharNum(t.size.x) ==> t.GetSpacer(text, value) == s.GetSpacer(text, value)
  {
  }

  /** The default format has no width, so any text overflows it and `get_spacer` panics. */
  lemma DefaultTextFormatHasNoRoom(text: string, value: string)
    ensures CharNum(DefaultTextFormat().size.x) == 0
    ensures !(|text| + |value| + 5 <= CharNum(DefaultTextFormat().size.x))
  {
  }

  /** Everything a `Gui` holds; `Gui`'s derived equality compares all of it. */
  datatype GuiState = GuiState(
    keys: seq<string>,
    values: seq<string>,
    hitboxes: seq<Box>,
    applyHitbox: Box,
    cancelHitbox: Box,
    elementIndex: nat,
    updating: bool,
    updatingIndex: nat)

  const ApplyHitbox: Box := (Vec2(1250.0, 540.0), Vec2(1350.0, 580.0))
  const CancelHitbox: Box := (Vec2(1440.0, 540.0), Vec2(1550.0, 580.0))

  /** The state of `Gui::new()`. */
  const NewGuiState: GuiState := GuiState([], [], [], ApplyHitbox, CancelHitbox, 0, false, 0)

  class Gui {
    var keys: seq<string>
    var values: seq<string>
    var hitboxes: seq<Box>
    var applyHitbox: Box
    var cancelHitbox: Box
    var elementIndex: nat
    var updating: bool
    var updatingIndex: nat

    function State(): GuiState
      reads this
    {
      GuiState(keys, values, hitboxes, applyHitbox, cancelHitbox, elementIndex, updating, updatingIndex)
    }

    /** `Gui::new`: no lines, the fixed apply and cancel buttons, both indices 0, not updating. */
    constructor New()
      ensures State() == NewGuiState
    {
      keys := [];
      values := [];
      hitboxes := [];
      applyHitbox := ApplyHitbox;
      cancelHitbox := CancelHitbox;
      elementIndex := 0;
      updating := false;
      updatingIndex := 0;
    }

    method SetElementIndex(index: nat)
      modifies this
      ensures State() == old(State()).(elementIndex := index)
    {
      elementIndex := index;
    }

    method SetUpdating(u: bool)
      modifies this
      ensures State() == old(State()).(updating := u)
    {
      updating := u;
    }

    method SetUpdatingIndex(index: nat)
      modifies this
      ensures State() == old(State()).(updatingIndex := index)
    {
      updatingIndex := index;
    }

    /** `set_updates`: line `index` gets a new value and hitbox; an index past either vector panics. */
    method SetUpdates(index: nat, value: string, hitbox: Box)
      requires index < |values| && index < |hitboxes|
      modifies this
      ensures State() == old(State()).(values := old(values)[index := value], hitboxes := old(hitboxes)[index := hitbox])
    {
      values := values[index := value];
      hitboxes := hitboxes[index := hitbox];
    }
  }

  /**
   * `gui_clicked`: a panel still in its initial state takes no clicks;
   * otherwise the click is on the panel when its truncated position lies in
   * the columns `SCREEN_WIDTH - GUI_WIDTH ..= SCREEN_WIDTH` and the rows
   * `..= GUI_HEIGHT`.
   */
  function GuiClicked(pos: (real, real), gui: Gui): (r: bool)
    reads gui
    ensures gui.State() == NewGuiState ==> !r
  {
    if gui.State() == NewGuiState then false
    else
      var x := AsU32(pos.0);
      var y := AsU32(pos.1);
      if x >= SCREEN_WIDTH - GUI_WIDTH && x <= SCREEN_WIDTH then y <= GUI_HEIGHT else false
  }

  /** Once the panel has changed, a click at a non-negative position takes it exactly within the rightmost 601 columns and the top 601 rows. */
  lemma GuiClickedRegion(pos: (real, real), gui: Gui)
    requires gui.State() != NewGuiState
    requires 0.0 <= pos.0 < U32_LIMIT as real && 0.0 <= pos.1 < U32_LIMIT as real
    ensures GuiClicked(pos, gui) <==> 1000.0 <= pos.0 < 1601.0 && pos.1 < 601.0
  {
    InRangeCast(pos.0);
    InRangeCast(pos.1);
  }
}
