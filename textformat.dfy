/** Text styles and their builder (src/gui/textformat.rs). */
module TextFormats {
  import opened Wrappers
  import opened Primitives

  /**
   * The fields of `UISettings` that the modelled code reads; `UISettings`
   * itself and its `default()` are not part of this model.
   */
  datatype UISettings = UISettings(fontSize: nat, paddingX: U32, paddingY: U32, margin: nat, guiWidth: nat)

  const White: Rgba := Rgba(255, 255, 255, 255)
  const Ink: Rgba := Rgba(0, 0, 0, 255)
  const Grey: Rgba := Rgba(89, 89, 89, 255)

  /** `Style`; `f32` is modelled by `real`. */
  datatype Style = Style(
    size: Vec2,
    fontSize: real,
    fontColor: Rgba,
    backgroundColor: Rgba,
    width: U32,
    height: U32,
    fillWidth: bool,
    visible: bool,
    disabled: bool,
    bgColor: Option<Rgba>,
    borderRadius: U32,
    paddingLeft: U32,
    paddingRight: U32,
    paddingTop: U32,
    paddingBot: U32)
  {
    /** `Style::get_spacer`. */
    function GetSpacer(text: string, value: string): (s: string)
      requires |text| + |value| + 5 <= CharNum(size.x)
      ensures s == Spacer(size.x, text, value)
    {
      Spacer(size.x, text, value)
    }

    /** `Style::get_axis_color` ignores the style. */
    function GetAxisColor(text: string): (c: Rgba)
      ensures c == AxisColor(text)
    {
      AxisColor(text)
    }
  }

  /** `Style::default`. */
  function DefaultStyle(settings: UISettings): (s: Style)
    ensures s.size == Vec2(0.0, 0.0) && s.width == 0 && s.height == 0
    ensures s.fontSize == settings.fontSize as real
    ensures s.fontColor == White && s.backgroundColor == Grey && s.bgColor == Some(Grey)
    ensures s.borderRadius == 0
    ensures s.paddingLeft == settings.paddingX && s.paddingRight == settings.paddingX
    ensures s.paddingTop == settings.paddingY && s.paddingBot == settings.paddingY
    ensures s.visible && !s.disabled && !s.fillWidth
  {
    Style(Vec2(0.0, 0.0), settings.fontSize as real, White, Grey, 0, 0, false, true, false,
      Some(Grey), 0, settings.paddingX, settings.paddingX, settings.paddingY, settings.paddingY)
  }

  /**
   * `StyleBuilder`: every setter takes the builder by value and returns it
   * with exactly one field of the style replaced.
   */
  datatype StyleBuilder = StyleBuilder(style: Style, settings: UISettings) {

    function PaddingLeft(p: U32): (b: StyleBuilder)
      ensures b.settings == settings && b.style.paddingLeft == p
      ensures b.style.(paddingLeft := style.paddingLeft) == style
    {
      this.(style := style.(paddingLeft := p))
    }

    function PaddingRight(p: U32): (b: StyleBuilder)
      ensures b.settings == settings && b.style.paddingRight == p
      ensures b.style.(paddingRight := style.paddingRight) == style
    {
      this.(style := style.(paddingRight := p))
    }

    function PaddingTop(p: U32): (b: StyleBuilder)
      ensures b.settings == settings && b.style.paddingTop == p
      ensures b.style.(paddingTop := style.paddingTop) == style
    {
      this.(style := style.(paddingTop := p))
    }

    function PaddingBot(p: U32): (b: StyleBuilder)
      ensures b.settings == settings && b.style.paddingBot == p
      ensures b.style.(paddingBot := style.paddingBot) == style
    {
      this.(style := style.(paddingBot := p))
    }

    function FillWidth(fill: bool): (b: StyleBuilder)
      ensures b.settings == settings && b.style.fillWidth == fill
      ensures b.style.(fillWidth := style.fillWidth) == style
    {
      this.(style := style.(fillWidth := fill))
    }

    /** All four paddings set to `p`, through the four single setters. */
    function Padding(p: U32): (b: StyleBuilder)
      ensures b.settings == settings
      ensures b.style.paddingLeft == p && b.style.paddingRight == p
      ensures b.style.paddingTop == p && b.style.paddingBot == p
      ensures b.style.(paddingLeft := style.paddingLeft, paddingRight := style.paddingRight,
                       paddingTop := style.paddingTop, paddingBot := style.paddingBot) == style
    {
      PaddingBot(p).PaddingTop(p).PaddingLeft(p).PaddingRight(p)
    }

    function Visible(visible: bool): (b: StyleBuilder)
      ensures b.settings == settings && b.style.visible == visible
      ensures b.style.(visible := style.visible) == style
    {
      this.(style := style.(visible := visible))
    }

    function Disabled(disabled: bool): (b: StyleBuilder)
      ensures b.settings == settings && b.style.disabled == disabled
      ensures b.style.(disabled := style.disabled) == style
    {
      this.(style := style.(disabled := disabled))
    }

    function BorderRadius(radius: U32): (b: StyleBuilder)
      ensures b.settings == settings && b.style.borderRadius == radius
      ensures b.style.(borderRadius := style.borderRadius) == style
    {
      this.(style := style.(borderRadius := radius))
    }

    function Width(width: U32): (b: StyleBuilder)
      ensures b.settings == settings && b.style.width == width
      ensures b.style.(width := style.width) == style
    {
      this.(style := style.(width := width))
    }

    function Height(height: U32): (b: StyleBuilder)
      ensures b.settings == settings && b.style.height == height
      ensures b.style.(height := style.height) == style
    {
      this.(style := style.(height := height))
    }

    function BgColor(bg: Option<Rgba>): (b: StyleBuilder)
      ensures b.settings == settings && b.style.bgColor == bg
      ensures b.style.(bgColor := style.bgColor) == style
    {
      this.(style := style.(bgColor := bg))
    }

    function FontColor(color: Rgba): (b: StyleBuilder)
      ensures b.settings == settings && b.style.fontColor == color
      ensures b.style.(fontColor := style.fontColor) == style
    {
      this.(style := style.(fontColor := color))
    }

    function Build(): Style { style }
  }

  /** `StyleBuilder::default`: the default style and a copy of the settings. */
  function DefaultBuilder(settings: UISettings): (b: StyleBuilder)
    ensures b.settings == settings
    ensures b.Build() == DefaultStyle(settings)
  {
    StyleBuilder(DefaultStyle(settings), settings)
  }

  /** `StyleBuilder::from_btn`: light grey background, black text, radius 3. */
  function FromButton(settings: UISettings): (b: StyleBuilder)
    ensures b.settings == settings
    ensures b.style == DefaultStyle(settings).(bgColor := Some(Rgba(200, 200, 200, 255)), fontColor := Ink, borderRadius := 3)
  {
    DefaultBuilder(settings).BgColor(Some(Rgba(200, 200, 200, 255))).FontColor(Ink).BorderRadius(3)
  }

  /** `Style::row`: no padding, the full width, no background. */
  function RowStyle(settings: UISettings): (s: Style)
    ensures s == DefaultStyle(settings).(paddingLeft := 0, paddingRight := 0, paddingTop := 0, paddingBot := 0,
                                         fillWidth := true, bgColor := None)
  {
    DefaultBuilder(settings).Padding(0).FillWidth(true).BgColor(None).Build()
  }

  /** `Style::field_format`: the default, at full width. */
  function FieldStyle(settings: UISettings): (s: Style)
    ensures s == DefaultStyle(settings).(fillWidth := true)
  {
    DefaultBuilder(settings).FillWidth(true).Build()
  }

  /** `Style::editing`: black on white. */
  function EditingStyle(settings: UISettings): (s: Style)
    ensures s == DefaultStyle(settings).(bgColor := Some(White), fontColor := Ink)
  {
    DefaultBuilder(settings).BgColor(Some(White)).FontColor(Ink).Build()
  }

  /** `Style::category`: full width, dark background, light grey text. */
  function CategoryStyle(settings: UISettings): (s: Style)
    ensures s == DefaultStyle(settings).(fillWidth := true, bgColor := Some(Rgba(40, 40, 40, 255)),
                                         fontColor := Rgba(200, 200, 200, 255))
  {
    DefaultBuilder(settings).FillWidth(true).BgColor(Some(Rgba(40, 40, 40, 255))).FontColor(Rgba(200, 200, 200, 255)).Build()
  }

  /** `Style::button`. */
  function ButtonStyle(settings: UISettings): (s: Style)
    ensures s == FromButton(settings).style
  {
    FromButton(settings).Build()
  }

  /** `Style::btn_apply`: a button with a green background. */
  function ApplyButtonStyle(settings: UISettings): (s: Style)
    ensures s == ButtonStyle(settings).(bgColor := Some(Rgba(70, 125, 70, 255)))
  {
    FromButton(settings).BgColor(Some(Rgba(70, 125, 70, 255))).Build()
  }

  /** `Style::btn_cancel`: a button with a red background. */
  function CancelButtonStyle(settings: UISettings): (s: Style)
    ensures s == ButtonStyle(settings).(bgColor := Some(Rgba(125, 70, 70, 255)))
  {
    FromButton(settings).BgColor(Some(Rgba(125, 70, 70, 255))).Build()
  }

  /** The three button styles differ only in their background. */
  lemma ButtonsDifferOnlyInBackground(settings: UISettings)
    ensures ApplyButtonStyle(settings).(bgColor := ButtonStyle(settings).bgColor) == ButtonStyle(settings)
    ensures CancelButtonStyle(settings).(bgColor := ButtonStyle(settings).bgColor) == ButtonStyle(settings)
    ensures ApplyButtonStyle(settings) != CancelButtonStyle(settings)
  {
  }

  /** `n` spaces (`" ".repeat(n)`). */
  function Spaces(n: nat): (s: string)
    ensures |s| == n && forall i :: 0 <= i < n ==> s[i] == ' '
  {
    seq(n, _ => ' ')
  }

  /** The number of 10-pixel characters in a line `width` wide: `width as usize / 10`. */
  function CharNum(width: real): nat { AsUsize(width) / 10 }

  /**
   * `get_spacer`: the spaces that pad `text` and `value` out to a line of
   * `CharNum(width)` characters less 5.  The `usize` subtraction panics
   * when the text and the value do not fit, hence the precondition.
   * Lengths are counted in characters.
   */
  function Spacer(width: real, text: string, value: string): (s: string)
    requires |text| + |value| + 5 <= CharNum(width)
    ensures |text| + |s| + |value| + 5 == CharNum(width)
    ensures forall i :: 0 <= i < |s| ==> s[i] == ' '
  {
    Spaces(CharNum(width) - |text| - |value| - 5)
  }

  /** `get_axis_color`: a red, green or blue tint for the axis and channel labels, white otherwise. */
  function AxisColor(text: string): (c: Rgba)
    ensures text == " X:" || text == " R:" ==> c == Rgba(255, 150, 150, 255)
    ensures text == " Y:" || text == " G:" ==> c == Rgba(150, 255, 150, 255)
    ensures text == " Z:" || text == " B:" ==> c == Rgba(150, 150, 255, 255)
    ensures c == White <==> text !in {" X:", " R:", " Y:", " G:", " Z:", " B:"}
  {
    if text == " X:" || text == " R:" then Rgba(255, 150, 150, 255)
    else if text == " Y:" || text == " G:" then Rgba(150, 255, 150, 255)
    else if text == " Z:" || text == " B:" then Rgba(150, 150, 255, 255)
    else White
  }
}
