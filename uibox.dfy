/** A box of widgets on screen (src/gui/elements/uibox.rs). */
module UIBoxes {
  import opened Wrappers
  import opened Colors
  import opened Constants
  import opened TextFormats
  import opened UIElements

  /**
   * Where an element sits in its box.  `Position` and the element's
   * `pos` field are not part of the element type modelled here, so the
   * height computation takes them from a `Layout`.
   */
  datatype Position = Relative(x: int, y: int) | Inline

  /**
   * What `height` reads of an element besides its visibility: its position
   * and its text height (`get_size(&elem.text, &elem.format).1`).
   */
  datatype Layout = Layout(position: UIElement -> Position, textHeight: UIElement -> nat)

  /**
   * The edit bar's apply and cancel buttons, its message element, and the
   * message it shows (`text.0`); the rest of `UIEditBar` is not part of
   * this model.
   */
  datatype EditBar = EditBar(btnApply: UIElement, btnCancel: UIElement, txtMessage: UIElement, message: Option<string>)

  /** The message to show after a validation: the error, if any. */
  function ErrorOf(o: Outcome<string>): Option<string> {
    if o.Fail? then Some(o.error) else None
  }

  /** How far a visible element placed at `y > 0` reaches below the top: `y + height + margin`. */
  function TopReach(e: UIElement, margin: nat, layout: Layout): nat {
    if e.visible && layout.position(e).Relative? && layout.position(e).y > 0
    then layout.position(e).y + layout.textHeight(e) + margin
    else 0
  }

  /** How far a visible element placed at `y < 0` reaches above the bottom: `-y + margin`. */
  function BottomReach(e: UIElement, margin: nat, layout: Layout): nat {
    if e.visible && layout.position(e).Relative? && layout.position(e).y < 0
    then -layout.position(e).y + margin
    else 0
  }

  /** The height a visible inline element takes: its height and a margin. */
  function InlineExtent(e: UIElement, margin: nat, layout: Layout): nat {
    if e.visible && layout.position(e).Inline? then layout.textHeight(e) + margin else 0
  }

  function Tops(margin: nat, layout: Layout): UIElement -> nat { e => TopReach(e, margin, layout) }
  function Bottoms(margin: nat, layout: Layout): UIElement -> nat { e => BottomReach(e, margin, layout) }
  function Inlines(margin: nat, layout: Layout): UIElement -> nat { e => InlineExtent(e, margin, layout) }

  /** The largest of `f` over `s`, and 0 for none. */
  function MaxOf(s: seq<UIElement>, f: UIElement -> nat): nat {
    if |s| == 0 then 0
    else var m := MaxOf(s[..|s| - 1], f); if f(s[|s| - 1]) > m then f(s[|s| - 1]) else m
  }

  /** The sum of `f` over `s`. */
  function SumOf(s: seq<UIElement>, f: UIElement -> nat): nat {
    if |s| == 0 then 0 else SumOf(s[..|s| - 1], f) + f(s[|s| - 1])
  }

  /** `MaxOf` bounds every entry and is one of them, or 0. */
  lemma {:induction false} MaxOfIsMaximum(s: seq<UIElement>, f: UIElement -> nat)
    ensures forall i :: 0 <= i < |s| ==> f(s[i]) <= MaxOf(s, f)
    ensures MaxOf(s, f) == 0 || exists i :: 0 <= i < |s| && f(s[i]) == MaxOf(s, f)
  {
    if |s| > 0 {
      var front := s[..|s| - 1];
      MaxOfIsMaximum(front, f);
      assert forall i :: 0 <= i < |front| ==> front[i] == s[i];
      if MaxOf(s, f) != 0 && MaxOf(s, f) != f(s[|s| - 1]) {
        var i :| 0 <= i < |front| && f(front[i]) == MaxOf(front, f);
        assert f(s[i]) == MaxOf(s, f);
      }
    }
  }

  lemma {:induction false} MaxOfConcat(a: seq<UIElement>, b: seq<UIElement>, f: UIElement -> nat)
    ensures MaxOf(a + b, f) == if MaxOf(a, f) < MaxOf(b, f) then MaxOf(b, f) else MaxOf(a, f)
  {
    if |b| == 0 {
      assert a + b == a;
    } else {
      assert (a + b)[..|a + b| - 1] == a + b[..|b| - 1];
      MaxOfConcat(a, b[..|b| - 1], f);
    }
  }

  lemma {:induction false} SumOfConcat(a: seq<UIElement>, b: seq<UIElement>, f: UIElement -> nat)
    ensures SumOf(a + b, f) == SumOf(a, f) + SumOf(b, f)
  {
    if |b| == 0 {
      assert a + b == a;
    } else {
      assert (a + b)[..|a + b| - 1] == a + b[..|b| - 1];
      SumOfConcat(a, b[..|b| - 1], f);
    }
  }

  /** The elements `height` visits: the box's own, then the edit bar's three. */
  function Measured(elems: seq<UIElement>, editBar: Option<EditBar>): seq<UIElement> {
    elems + if editBar.Some? then [editBar.value.btnApply, editBar.value.btnCancel, editBar.value.txtMessage] else []
  }

  /**
   * `height`: the inline elements stacked, plus the deepest reach from the
   * top and the deepest reach from the bottom.
   */
  function BoxHeight(elems: seq<UIElement>, editBar: Option<EditBar>, margin: nat, layout: Layout): nat {
    var s := Measured(elems, editBar);
    SumOf(s, Inlines(margin, layout)) + MaxOf(s, Tops(margin, layout)) + MaxOf(s, Bottoms(margin, layout))
  }

  /**
   * `UIBox::validate_properties` as the elements report it: `Ok` when every
   * element validates, otherwise the first element's error.
   */
  function ValidateAll(es: seq<UIElement>): (o: Outcome<string>)
    ensures o.Pass? <==> forall i :: 0 <= i < |es| ==> Validate(es[i]).Pass?
    ensures o.Fail? ==> exists i :: 0 <= i < |es| && Validate(es[i]) == o && forall j :: 0 <= j < i ==> Validate(es[j]).Pass?
  {
    if |es| == 0 then Pass
    else
      var front := ValidateAll(es[..|es| - 1]);
      assert forall i :: 0 <= i < |es| - 1 ==> es[..|es| - 1][i] == es[i];
      if front.Fail? then front else Validate(es[|es| - 1])
  }

  class UIBox {
    var pos: (nat, nat)
    var collapsed: bool
    var visible: bool
    var borders: Option<(Color, nat)>
    var backgroundColor: Option<Color>
    var zindex: nat
    var margin: nat
    var elems: seq<UIElement>
    var reference: string
    var editBar: Option<EditBar>

    /** Every field but the reference and the edit bar. */
    function Contents(): ((nat, nat), bool, bool, Option<(Color, nat)>, Option<Color>, nat, nat, seq<UIElement>)
      reads this
    {
      (pos, collapsed, visible, borders, backgroundColor, zindex, margin, elems)
    }

    /**
     * `UIBox::default`: docked at the right edge of the screen, visible,
     * expanded, dark grey, on layer 1, empty, without an edit bar.  The
     * `u32` subtraction panics when the gui is wider than the screen.
     */
    constructor Default(settings: UISettings, reference: string)
      requires settings.guiWidth <= SCREEN_WIDTH
      ensures pos == (SCREEN_WIDTH - settings.guiWidth, 0)
      ensures backgroundColor == Some(Colors.New(0.1, 0.1, 0.1)) && borders == None
      ensures visible && !collapsed && zindex == 1 && margin == settings.margin
      ensures elems == [] && this.reference == reference && editBar == None
    {
      pos := (SCREEN_WIDTH - settings.guiWidth, 0);
      backgroundColor := Some(Colors.New(0.1, 0.1, 0.1));
      borders := None;
      visible := true;
      collapsed := false;
      zindex := 1;
      margin := settings.margin;
      elems := [];
      this.reference := reference;
      editBar := None;
    }

    /** `add_elements`: the new elements go after the existing ones, in order. */
    method AddElements(es: seq<UIElement>)
      modifies this
      ensures elems == old(elems) + es
      ensures pos == old(pos) && collapsed == old(collapsed) && visible == old(visible)
      ensures borders == old(borders) && backgroundColor == old(backgroundColor)
      ensures zindex == old(zindex) && margin == old(margin)
      ensures reference == old(reference) && editBar == old(editBar)
    {
      elems := elems + es;
    }

    /** `validate_properties`; the scene and the UI it is given are not used. */
    function ValidateProperties(): (o: Outcome<string>)
      reads this
      ensures o == ValidateAll(elems)
    {
      ValidateAll(elems)
    }

    /** `height(margin)`: the accumulation runs over the elements, then over the edit bar's three. */
    method Height(margin: nat, layout: Layout) returns (h: nat)
      ensures h == BoxHeight(elems, editBar, margin, layout)
    {
      var top, bot, inline := MeasureAll([], elems, margin, layout, 0, 0, 0);
      assert [] + elems == elems;
      var bar: seq<UIElement> := if editBar.Some? then [editBar.value.btnApply, editBar.value.btnCancel, editBar.value.txtMessage] else [];
      top, bot, inline := MeasureAll(elems, bar, margin, layout, top, bot, inline);
      assert elems + bar == Measured(elems, editBar);
      h := inline + top + bot;
    }
  }

  /**
   * One loop of `height`: the accumulators, which hold the reaches and the
   * stack of the elements `done` already visited, take in those of `s`.
   */
  method MeasureAll(ghost done: seq<UIElement>, s: seq<UIElement>, margin: nat, layout: Layout, top: nat, bot: nat, inline: nat)
    returns (top': nat, bot': nat, inline': nat)
    requires top == MaxOf(done, Tops(margin, layout)) && bot == MaxOf(done, Bottoms(margin, layout))
    requires inline == SumOf(done, Inlines(margin, layout))
    ensures top' == MaxOf(done + s, Tops(margin, layout)) && bot' == MaxOf(done + s, Bottoms(margin, layout))
    ensures inline' == SumOf(done + s, Inlines(margin, layout))
  {
    top', bot', inline' := top, bot, inline;
    var i := 0;
    assert done + s[..0] == done;
    while i < |s|
      invariant 0 <= i <= |s|
      invariant top' == MaxOf(done + s[..i], Tops(margin, layout)) && bot' == MaxOf(done + s[..i], Bottoms(margin, layout))
      invariant inline' == SumOf(done + s[..i], Inlines(margin, layout))
    {
      assert (done + s[..i + 1])[..|done| + i] == done + s[..i];
      top', bot', inline' := Measure(s[i], margin, layout, top', bot', inline');
      i := i + 1;
    }
    assert s[..|s|] == s;
  }

  /** One pass of either loop of `height`: a visible element raises the top or the bottom reach, or adds to the inline stack. */
  method Measure(e: UIElement, margin: nat, layout: Layout, top: nat, bot: nat, inline: nat) returns (top': nat, bot': nat, inline': nat)
    ensures top' == if TopReach(e, margin, layout) > top then TopReach(e, margin, layout) else top
    ensures bot' == if BottomReach(e, margin, layout) > bot then BottomReach(e, margin, layout) else bot
    ensures inline' == inline + InlineExtent(e, margin, layout)
  {
    top', bot', inline' := top, bot, inline;
    if e.visible {
      match layout.position(e) {
        case Relative(_, y) =>
          if y > 0 {
            var needed := y + layout.textHeight(e) + margin;
            if needed > top' {
              top' := needed;
            }
          } else if y < 0 {
            var needed := -y + margin;
            if needed > bot' {
              bot' := needed;
            }
          }
        case Inline =>
          inline' := inline' + layout.textHeight(e) + margin;
      }
    }
  }

  /** The box height bounds what every measured element needs: its inline extent and its reach from either edge. */
  lemma HeightCoversEveryElement(elems: seq<UIElement>, editBar: Option<EditBar>, margin: nat, layout: Layout, i: nat)
    requires i < |Measured(elems, editBar)|
    ensures var e := Measured(elems, editBar)[i];
      InlineExtent(e, margin, layout) + TopReach(e, margin, layout) + BottomReach(e, margin, layout)
      <= BoxHeight(elems, editBar, margin, layout)
  {
    var s := Measured(elems, editBar);
    var f := Inlines(margin, layout);
    MaxOfIsMaximum(s, Tops(margin, layout));
    MaxOfIsMaximum(s, Bottoms(margin, layout));
    SumOfConcat(s[..i], s[i..], f);
    SumOfConcat([s[i]], s[i + 1..], f);
    assert s == s[..i] + s[i..];
    assert s[i..] == [s[i]] + s[i + 1..];
    assert SumOf([s[i]], f) == f(s[i]) by {
      assert [s[i]][..0] == [];
    }
  }

  /** Adding a hidden element to a box does not change its height. */
  lemma HiddenElementAddsNoHeight(elems: seq<UIElement>, hidden: UIElement, editBar: Option<EditBar>, margin: nat, layout: Layout)
    requires !hidden.visible
    ensures BoxHeight(elems + [hidden], editBar, margin, layout) == BoxHeight(elems, editBar, margin, layout)
  {
    var bar := Measured([], editBar);
    assert Measured(elems + [hidden], editBar) == (elems + [hidden]) + bar;
    assert Measured(elems, editBar) == elems + bar;
    var fi, ft, fb := Inlines(margin, layout), Tops(margin, layout), Bottoms(margin, layout);
    assert (elems + [hidden])[..|elems|] == elems;
    SumOfConcat(elems + [hidden], bar, fi);
    SumOfConcat(elems, bar, fi);
    MaxOfConcat(elems + [hidden], bar, ft);
    MaxOfConcat(elems, bar, ft);
    MaxOfConcat(elems + [hidden], bar, fb);
    MaxOfConcat(elems, bar, fb);
  }
}
