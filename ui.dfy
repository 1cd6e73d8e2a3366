/** The registry of boxes, the input state and click dispatch (src/gui/elements/ui.rs). */
module UIs {
  import opened Wrappers
  import opened Primitives
  import opened Decimal
  import opened TextFormats
  import opened UIElements
  import opened UIBoxes

  /** A key code (`VirtualKeyCode`). */
  type Key = int

  /** A clickable rectangle and the element it belongs to (`HitBox`). */
  datatype HitBox = HitBox(pos: (nat, nat), size: (nat, nat), reference: string, disabled: bool)

  /** Everything a `UI` holds except the render context, which is not part of this model. */
  datatype UIState = UIState(
    boxes: map<string, UIBox>,
    uisettings: UISettings,
    boxIndex: nat,
    activeBoxReference: string,
    editing: Option<Editing>,
    mousePosition: (U32, U32),
    inputs: seq<Key>,
    hitboxVec: seq<HitBox>,
    dirty: bool)

  class UI {
    var boxes: map<string, UIBox>
    var uisettings: UISettings
    var boxIndex: nat
    var activeBoxReference: string
    var editing: Option<Editing>
    var mousePosition: (U32, U32)
    var inputs: seq<Key>
    var hitboxVec: seq<HitBox>
    var dirty: bool

    function State(): UIState
      reads this
    {
      UIState(boxes, uisettings, boxIndex, activeBoxReference, editing, mousePosition, inputs, hitboxVec, dirty)
    }

    /**
     * `UI::default`: no boxes, no active box, nothing edited or pressed, and
     * dirty so that the first frame is drawn.  `UISettings::default()` is
     * not part of this model and is the parameter.
     */
    constructor Default(settings: UISettings)
      ensures State() == UIState(map[], settings, 0, "", None, (0, 0), [], [], true)
    {
      boxes := map[];
      uisettings := settings;
      boxIndex := 0;
      activeBoxReference := "";
      editing := None;
      mousePosition := (0, 0);
      inputs := [];
      hitboxVec := [];
      dirty := true;
    }

    method SetMousePosition(pos: (U32, U32))
      modifies this
      ensures State() == old(State()).(mousePosition := pos)
    {
      mousePosition := pos;
    }

    /**
     * `refresh_formats` marks the UI dirty.  The boxes' own
     * `refresh_formats` is not part of this model, so the boxes are left
     * as they are.
     */
    method RefreshFormats()
      modifies this
      ensures State() == old(State()).(dirty := true)
    {
      dirty := true;
    }

    /** `set_editing`: a new editing state, and a redraw. */
    method SetEditing(e: Option<Editing>)
      modifies this
      ensures State() == old(State()).(editing := e, dirty := true)
    {
      editing := e;
      dirty := true;
    }

    /** `get_box`: the box under `reference`; a missing one panics. */
    function GetBox(reference: string): (b: UIBox)
      reads this
      requires reference in boxes
      ensures b == boxes[reference]
    {
      boxes[reference]
    }

    /**
     * `add_box`: a box without a reference is numbered with the next box
     * index; the box is stored under its reference, replacing any box
     * already there, and the reference is returned.
     */
    method AddBox(uibox: UIBox) returns (reference: string)
      modifies this, uibox
      ensures reference == if old(uibox.reference) == "" then NatToString(old(boxIndex) + 1) else old(uibox.reference)
      ensures uibox.reference == reference
      ensures uibox.Contents() == old(uibox.Contents()) && uibox.editBar == old(uibox.editBar)
      ensures State() == old(State()).(
        boxes := old(boxes)[reference := uibox],
        boxIndex := if old(uibox.reference) == "" then old(boxIndex) + 1 else old(boxIndex))
    {
      if uibox.reference == "" {
        boxIndex := boxIndex + 1;
        uibox.reference := NatToString(boxIndex);
      }
      reference := uibox.reference;
      boxes := boxes[reference := uibox];
    }

    /**
     * `active_box`: none while the active reference is empty, otherwise the
     * box under it; a reference without a box panics.
     */
    function ActiveBox(): (b: Option<UIBox>)
      reads this
      requires activeBoxReference != "" ==> activeBoxReference in boxes
      ensures b.None? <==> activeBoxReference == ""
      ensures b.Some? ==> b.value == boxes[activeBoxReference]
    {
      if activeBoxReference == "" then None else Some(boxes[activeBoxReference])
    }

    /** `set_active_box`: a new active reference, and a redraw. */
    method SetActiveBox(id: string)
      modifies this
      ensures State() == old(State()).(activeBoxReference := id, dirty := true)
    {
      activeBoxReference := id;
      dirty := true;
    }

    method SetDirty()
      modifies this
      ensures State() == old(State()).(dirty := true)
    {
      dirty := true;
    }

    /** `draw` paints the boxes, which is not part of this model, and clears the dirty flag. */
    method Draw()
      modifies this
      ensures State() == old(State()).(dirty := false)
    {
      dirty := false;
    }

    /** `input_pressed`: the key goes at the end of the pressed list. */
    method InputPressed(pressed: Key)
      modifies this
      ensures State() == old(State()).(inputs := old(inputs) + [pressed])
    {
      inputs := inputs + [pressed];
    }

    /**
     * `input_released` as written: the loop runs over the indices of the
     * list as it was, removes each match, and panics (`unwrap` on `None`)
     * once the index passes the end of the shrunken list.  `completed` is
     * false for the panic.
     */
    method InputReleasedAsWritten(released: Key) returns (completed: bool)
      modifies this
      ensures completed <==> ReleaseAsWritten(old(inputs), released).Some?
      ensures completed ==> State() == old(State()).(inputs := ReleaseAsWritten(old(inputs), released).value)
    {
      var n := |inputs|;
      var i := 0;
      while i < n
        invariant 0 <= i <= n
        invariant ReleaseLoop(inputs, released, i, n) == ReleaseAsWritten(old(inputs), released)
        invariant State() == old(State()).(inputs := inputs)
      {
        if i >= |inputs| {
          return false;
        }
        if inputs[i] == released {
          inputs := inputs[..i] + inputs[i + 1..];
        }
        i := i + 1;
      }
      return true;
    }

    /** `input_released` as evidently intended: every occurrence of the key is removed, the rest kept in order. */
    method InputReleased(released: Key)
      modifies this
      ensures State() == old(State()).(inputs := RemoveAll(old(inputs), released))
    {
      var kept := [];
      var i := 0;
      while i < |inputs|
        invariant 0 <= i <= |inputs|
        invariant kept == RemoveAll(inputs[..i], released)
      {
        assert inputs[..i + 1][..i] == inputs[..i];
        if inputs[i] != released {
          kept := kept + [inputs[i]];
        }
        i := i + 1;
      }
      assert inputs[..|inputs|] == inputs;
      inputs := kept;
    }

    /**
     * `validate_properties(reference)`: the box's elements are validated in
     * order up to the first error.  With an edit bar, its message becomes
     * that error, or is cleared when there is none; without one nothing
     * changes.  A missing box panics.
     */
    method ValidateProperties(reference: string)
      requires reference in boxes
      modifies boxes[reference]
      ensures boxes[reference].editBar ==
        if old(boxes[reference].editBar).Some?
        then Some(old(boxes[reference].editBar).value.(message := ErrorOf(ValidateAll(old(boxes[reference].elems)))))
        else old(boxes[reference].editBar)
      ensures boxes[reference].Contents() == old(boxes[reference].Contents())
      ensures boxes[reference].reference == old(boxes[reference].reference)
    {
      var uibox := GetBox(reference);
      var error: Option<string> := None;
      var i := 0;
      while i < |uibox.elems|
        invariant 0 <= i <= |uibox.elems|
        invariant ValidateAll(uibox.elems[..i]).Pass?
        invariant error.None?
      {
        assert uibox.elems[..i + 1][..i] == uibox.elems[..i];
        var o := Validate(uibox.elems[i]);
        if o.Fail? {
          error := Some(o.error);
          assert ValidateAll(uibox.elems[..i + 1]) == o;
          break;
        }
        i := i + 1;
      }
      if i == |uibox.elems| {
        assert uibox.elems[..i] == uibox.elems;
      } else {
        PrefixFailureIsFirst(uibox.elems, i + 1);
      }
      if uibox.editBar.Some? {
        uibox.editBar := Some(uibox.editBar.value.(message := error));
      }
    }
  }

  /** A failure among the first `k` elements is the failure of them all. */
  lemma {:induction false} PrefixFailureIsFirst(es: seq<UIElement>, k: nat)
    requires k <= |es| && ValidateAll(es[..k]).Fail?
    ensures ValidateAll(es) == ValidateAll(es[..k])
    decreases |es| - k
  {
    if k < |es| {
      assert es[..k + 1][..k] == es[..k];
      PrefixFailureIsFirst(es, k + 1);
    } else {
      assert es[..k] == es;
    }
  }

  /** `show`: the box becomes the active one (src/gui/elements/uibox.rs). */
  method Show(b: UIBox, ui: UI)
    modifies ui
    ensures ui.State() == old(ui.State()).(activeBoxReference := b.reference, dirty := true)
  {
    ui.SetActiveBox(b.reference);
  }

  // ---------------------------------------------------------------------
  // Releasing a key

  /**
   * The loop of `input_released` from index `i` on, over the `n` indices of
   * the original list; `None` is the panic.
   */
  function ReleaseLoop(s: seq<Key>, k: Key, i: nat, n: nat): Option<seq<Key>>
    decreases n - i
  {
    if i >= n then Some(s)
    else if i >= |s| then None
    else ReleaseLoop(if s[i] == k then s[..i] + s[i + 1..] else s, k, i + 1, n)
  }

  function ReleaseAsWritten(s: seq<Key>, k: Key): Option<seq<Key>> {
    ReleaseLoop(s, k, 0, |s|)
  }

  /** Once the list is shorter than the loop's range, the loop panics. */
  lemma {:induction false} ShortListPanics(s: seq<Key>, k: Key, i: nat, n: nat)
    requires |s| < n && i < n
    ensures ReleaseLoop(s, k, i, n).None?
    decreases n - i
  {
    if i < |s| {
      ShortListPanics(if s[i] == k then s[..i] + s[i + 1..] else s, k, i + 1, n);
    }
  }

  /** With the list at full length and no match before its last entry, the loop removes a matching last entry only. */
  lemma {:induction false} FullListFromIndex(s: seq<Key>, k: Key, i: nat)
    requires 0 < |s| && i <= |s|
    ensures (exists j :: i <= j < |s| - 1 && s[j] == k) ==> ReleaseLoop(s, k, i, |s|).None?
    ensures (forall j :: i <= j < |s| - 1 ==> s[j] != k) ==>
      ReleaseLoop(s, k, i, |s|) == Some(if i < |s| && s[|s| - 1] == k then s[..|s| - 1] else s)
    decreases |s| - i
  {
    var n := |s|;
    if i < n {
      if s[i] == k {
        var t := s[..i] + s[i + 1..];
        if i < n - 1 {
          ShortListPanics(t, k, i + 1, n);
        } else {
          assert t == s[..n - 1];
        }
      } else {
        FullListFromIndex(s, k, i + 1);
      }
    }
  }

  /**
   * `input_released` as written leaves a list without the key unchanged,
   * drops a match that is only the last entry, and panics whenever the key
   * occurs before the last entry.
   */
  lemma ReleaseAsWrittenCases(s: seq<Key>, k: Key)
    ensures ReleaseAsWritten(s, k).None? <==> exists j :: 0 <= j < |s| - 1 && s[j] == k
    ensures ReleaseAsWritten(s, k).Some? ==>
      ReleaseAsWritten(s, k).value == if |s| > 0 && s[|s| - 1] == k then s[..|s| - 1] else s
  {
    if |s| > 0 {
      FullListFromIndex(s, k, 0);
    }
  }

  /** The first key released from `[k, x]` with `x != k` makes `input_released` panic. */
  lemma ReleaseAsWrittenPanics(k: Key, x: Key)
    requires x != k
    ensures ReleaseAsWritten([k, x], k).None?
  {
    ReleaseAsWrittenCases([k, x], k);
  }

  /** The list without the key, the rest kept in order. */
  function RemoveAll(s: seq<Key>, k: Key): seq<Key> {
    if |s| == 0 then [] else RemoveAll(s[..|s| - 1], k) + (if s[|s| - 1] == k then [] else [s[|s| - 1]])
  }

  /** After removing a key it is gone, every other key keeps its count, and a list without it is unchanged. */
  lemma {:induction false} RemoveAllSpec(s: seq<Key>, k: Key)
    ensures k !in RemoveAll(s, k)
    ensures forall x :: x != k ==> multiset(RemoveAll(s, k))[x] == multiset(s)[x]
    ensures k !in s ==> RemoveAll(s, k) == s
  {
    if |s| > 0 {
      var front := s[..|s| - 1];
      RemoveAllSpec(front, k);
      assert s == front + [s[|s| - 1]];
      if k !in s {
        assert k !in front;
      }
    }
  }

  /** Wherever the loop as written does not panic, it agrees with the intended removal. */
  lemma ReleaseAsWrittenAgrees(s: seq<Key>, k: Key)
    requires ReleaseAsWritten(s, k).Some?
    ensures ReleaseAsWritten(s, k).value == RemoveAll(s, k)
  {
    ReleaseAsWrittenCases(s, k);
    if |s| > 0 {
      var front := s[..|s| - 1];
      assert k !in front;
      RemoveAllSpec(front, k);
    }
  }

  // ---------------------------------------------------------------------
  // Clicks

  /** The hitbox is enabled and the click lies strictly inside it on both axes. */
  predicate Hits(h: HitBox, click: (nat, nat)) {
    !h.disabled
    && h.pos.0 < click.0 < h.pos.0 + h.size.0
    && h.pos.1 < click.1 < h.pos.1 + h.size.1
  }

  predicate EndsWith(s: string, suffix: string) {
    |suffix| <= |s| && s[|s| - |suffix|..] == suffix
  }

  /** The reference of an edit bar's apply or cancel button. */
  predicate IsEditBarButton(reference: string) {
    EndsWith(reference, "btnApply") || EndsWith(reference, "btnCancel")
  }

  /**
   * The click is dealt with by this hitbox: it is hit, and it is an edit
   * bar button or its element can be taken out of the tree (`take_element`,
   * the parameter `takeable`).
   */
  predicate Dispatches(h: HitBox, click: (nat, nat), takeable: string -> bool) {
    Hits(h, click) && (IsEditBarButton(h.reference) || takeable(h.reference))
  }

  /**
   * `ui_clicked`: the hitbox list is emptied, and the first hitbox in order
   * that deals with the click is dispatched; the result says whether one
   * was.  What the dispatch then does is not part of this model.
   */
  method UiClicked(click: (nat, nat), ui: UI, takeable: string -> bool) returns (clicked: bool, target: Option<nat>)
    modifies ui
    ensures ui.State() == old(ui.State()).(hitboxVec := [])
    ensures clicked <==> target.Some?
    ensures target.Some? ==> target.value < |old(ui.hitboxVec)| && Dispatches(old(ui.hitboxVec)[target.value], click, takeable)
    ensures target.Some? ==> forall j :: 0 <= j < target.value ==> !Dispatches(old(ui.hitboxVec)[j], click, takeable)
    ensures target.None? ==> forall j :: 0 <= j < |old(ui.hitboxVec)| ==> !Dispatches(old(ui.hitboxVec)[j], click, takeable)
  {
    var list := ui.hitboxVec;
    ui.hitboxVec := [];
    var i := 0;
    while i < |list|
      invariant 0 <= i <= |list|
      invariant forall j :: 0 <= j < i ==> !Dispatches(list[j], click, takeable)
    {
      var h := list[i];
      if Hits(h, click) {
        if IsEditBarButton(h.reference) {
          return true, Some(i);
        } else if takeable(h.reference) {
          return true, Some(i);
        }
      }
      i := i + 1;
    }
    return false, None;
  }

  /** A click on the edge of a hitbox is not inside it. */
  lemma EdgeClickMisses(h: HitBox, y: nat)
    ensures !Hits(h, (h.pos.0, y)) && !Hits(h, (h.pos.0 + h.size.0, y))
  {
  }
}
