/**
 * The widget tree (src/gui/elements/uielement.rs).
 *
 * A `UIElement` exclusively owns its children (a `Category` holds them in a
 * `Vec`), so the tree is a value here.  The code that rewrites the tree in
 * place (`set_reference`, `reset_properties`) becomes a method returning
 * the rewritten tree, proved against a function that says what the tree
 * becomes.  The lookups return the node they find (`&mut` in the code).
 */
module UIElements {
  import opened Wrappers
  import opened Primitives
  import opened Decimal
  import opened TextFormats

  /** The value of a property. */
  datatype Value = Text(s: string) | Float(f: real) | Unsigned(n: U32) | Bool(b: bool) {
    /** Both values have the same variant. */
    predicate SameKind(o: Value) {
      (Text? && o.Text?) || (Float? && o.Float?) || (Unsigned? && o.Unsigned?) || (Bool? && o.Bool?)
    }
  }

  /**
   * `Value::to_string`.  The formatting of an `f64` is not part of this
   * model and is the parameter `formatFloat`.
   */
  function ToString(v: Value, formatFloat: real -> string): (s: string)
    ensures v.Text? ==> s == v.s
    ensures v.Bool? ==> s == (if v.b then "true" else "false")
    ensures v.Unsigned? ==> ParseU32(s) == Some(v.n)
    ensures v.Float? ==> s == formatFloat(v.f)
  {
    match v
    case Text(s) => s
    case Bool(b) => if b then "true" else "false"
    case Float(f) => formatFloat(f)
    case Unsigned(n) => ParseU32RoundTrip(n); NatToString(n)
  }

  /** The property being edited and the text typed so far (`Editing`, src/gui/elements/ui.rs). */
  datatype Editing = Editing(reference: string, value: string)

  /**
   * `Property`: the current and the initial value, the format used while
   * editing, and the validator.  The submit closure is not part of this
   * model.
   */
  datatype Property = Property(value: Value, initialValue: Value, editingFormat: Style, validate: Value -> Outcome<string>) {

    /**
     * `get_value_from_string`: the typed text read as a value of the
     * current value's variant.  The parsing of an `f64` is not part of this
     * model and is the parameter `parseFloat`.
     */
    function GetValueFromString(val: string, parseFloat: string -> Option<real>): (r: Result<Value, string>)
      ensures r.Ok? ==> r.value.SameKind(value)
      ensures value.Bool? ==> r == Err("Bool value edited ?")
      ensures value.Text? ==> r == Ok(Text(val))
      ensures value.Unsigned? ==>
        (r.Ok? <==> ParseU32(val).Some?)
        && (r.Ok? ==> r.value.n == ParseU32(val).value)
        && (r.Err? ==> r.error == "The value must be a proper unsigned integer")
      ensures value.Float? ==>
        (r.Ok? <==> parseFloat(val).Some?)
        && (r.Ok? ==> r.value.f == parseFloat(val).value)
        && (r.Err? ==> r.error == "The value must be a proper float")
    {
      match value
      case Bool(_) => Err("Bool value edited ?")
      case Float(_) =>
        (match parseFloat(val)
         case None => Err("The value must be a proper float")
         case Some(f) => Ok(Float(f)))
      case Text(_) => Ok(Text(val))
      case Unsigned(_) =>
        (match ParseU32(val)
         case None => Err("The value must be a proper unsigned integer")
         case Some(n) => Ok(Unsigned(n)))
    }
  }

  /** `Property::new`: the initial value is the value, the editing format is `Value::base_format`. */
  function NewProperty(value: Value, validate: Value -> Outcome<string>, settings: UISettings): (p: Property)
    ensures p.value == value && p.initialValue == value
    ensures p.editingFormat == EditingStyle(settings) && p.validate == validate
  {
    Property(value, value, EditingStyle(settings), validate)
  }

  /**
   * Editing a text or unsigned property starts from `to_string` of its
   * value, and reading that text back gives the value again; a float
   * does too when the float formatting and parsing are inverse there.
   */
  lemma EditRoundTrip(p: Property, formatFloat: real -> string, parseFloat: string -> Option<real>)
    requires !p.value.Bool?
    requires p.value.Float? ==> parseFloat(formatFloat(p.value.f)) == Some(p.value.f)
    ensures p.GetValueFromString(ToString(p.value, formatFloat), parseFloat) == Ok(p.value)
  {
  }

  datatype Category = Category(elems: seq<UIElement>, collapsed: bool)

  /** `Category::default`: no children, expanded. */
  function DefaultCategory(): (c: Category)
    ensures c.elems == [] && !c.collapsed
  {
    Category([], false)
  }

  /**
   * `ElemType`.  The closures of `Stat` (drawing) and `Button` (clicking)
   * are not part of this model.
   */
  datatype ElemType = TextElem | StatElem | PropertyElem(prop: Property) | CategoryElem(cat: Category) | ButtonElem

  datatype UIElement = UIElement(
    visible: bool,
    elemType: ElemType,
    text: string,
    format: Style,
    size: (U32, U32),
    id: string,
    reference: string)
  {
    /** A category whose children are shown. */
    predicate Expanded() { elemType.CategoryElem? && !elemType.cat.collapsed }

    /** The children: those of a category, none otherwise. */
    function Children(): seq<UIElement> {
      if elemType.CategoryElem? then elemType.cat.elems else []
    }
  }

  /**
   * `ElemType::base_format`.  The element code names the presets
   * `new_btn_format`, `new_category_format`, `field_format` and
   * `FormatBuilder`; they are the `button`, `category`, `field_format` and
   * `StyleBuilder` styles of src/gui/textformat.rs.
   */
  function BaseFormat(kind: ElemType, settings: UISettings): (s: Style)
    ensures kind.ButtonElem? ==> s == ButtonStyle(settings)
    ensures kind.CategoryElem? ==> s == CategoryStyle(settings)
    ensures kind.PropertyElem? ==> s == FieldStyle(settings)
    ensures kind.StatElem? ==> s == DefaultStyle(settings).(bgColor := None)
    ensures kind.TextElem? ==> s == FieldStyle(settings).(bgColor := None)
    ensures kind.StatElem? || kind.TextElem? ==> s.bgColor.None?
  {
    match kind
    case ButtonElem => ButtonStyle(settings)
    case CategoryElem(_) => CategoryStyle(settings)
    case PropertyElem(_) => FieldStyle(settings)
    case StatElem => DefaultBuilder(settings).BgColor(None).Build()
    case TextElem => FieldStyle(settings).(bgColor := None)
  }

  /** `UIElement::new`: visible, size (0, 0), and its reference is its id until `set_reference`. */
  function New(name: string, id: string, kind: ElemType, settings: UISettings): (e: UIElement)
    ensures e.visible && e.text == name && e.size == (0, 0)
    ensures e.id == id && e.reference == id
    ensures e.elemType == kind && e.format == BaseFormat(kind, settings)
  {
    UIElement(true, kind, name, BaseFormat(kind, settings), (0, 0), id, id)
  }

  // ---------------------------------------------------------------------
  // Height

  /**
   * `height`: nothing for a hidden element; otherwise its own text height
   * (`get_size(text, format).1`, the parameter `textHeight`) plus, for an
   * expanded category, each child's height and a margin.
   */
  function Height(e: UIElement, margin: nat, textHeight: (string, Style) -> nat): nat {
    if !e.visible then 0
    else textHeight(e.text, e.format) + (if e.Expanded() then ChildrenHeight(e.elemType.cat.elems, margin, textHeight) else 0)
  }

  function ChildrenHeight(es: seq<UIElement>, margin: nat, textHeight: (string, Style) -> nat): nat {
    if |es| == 0 then 0
    else ChildrenHeight(es[..|es| - 1], margin, textHeight) + Height(es[|es| - 1], margin, textHeight) + margin
  }

  /** `height`, one child at a time as the code adds them up. */
  method ComputeHeight(e: UIElement, settings: UISettings, textHeight: (string, Style) -> nat) returns (h: nat)
    ensures h == Height(e, settings.margin, textHeight)
    decreases e
  {
    if !e.visible {
      return 0;
    }
    h := textHeight(e.text, e.format);
    if e.elemType.CategoryElem? && !e.elemType.cat.collapsed {
      var elems := e.elemType.cat.elems;
      var i := 0;
      while i < |elems|
        invariant 0 <= i <= |elems|
        invariant h == textHeight(e.text, e.format) + ChildrenHeight(elems[..i], settings.margin, textHeight)
      {
        assert elems[..i + 1][..i] == elems[..i];
        var c := ComputeHeight(elems[i], settings, textHeight);
        h := h + c + settings.margin;
        i := i + 1;
      }
      assert elems[..|elems|] == elems;
    }
  }

  /** Every child of an expanded category adds at least a margin, hidden children included. */
  lemma {:induction false} ChildrenHeightCountsEveryMargin(es: seq<UIElement>, margin: nat, textHeight: (string, Style) -> nat)
    ensures ChildrenHeight(es, margin, textHeight) >= |es| * margin
  {
    if |es| > 0 {
      ChildrenHeightCountsEveryMargin(es[..|es| - 1], margin, textHeight);
    }
  }

  /** A hidden child adds exactly one margin to its category's height. */
  lemma HiddenChildAddsMargin(es: seq<UIElement>, hidden: UIElement, margin: nat, textHeight: (string, Style) -> nat)
    requires !hidden.visible
    ensures ChildrenHeight(es + [hidden], margin, textHeight) == ChildrenHeight(es, margin, textHeight) + margin
  {
    assert (es + [hidden])[..|es|] == es;
  }

  // ---------------------------------------------------------------------
  // References

  /**
   * What `set_reference(parent)` makes of an element: its reference becomes
   * `parent.id`, and each child of a category is set in turn under it.
   */
  function WithReference(e: UIElement, parent: string): (r: UIElement) {
    var me := parent + "." + e.id;
    match e.elemType
    case CategoryElem(cat) =>
      e.(reference := me, elemType := CategoryElem(cat.(elems := ChildrenWithReference(cat.elems, me))))
    case _ => e.(reference := me)
  }

  function ChildrenWithReference(es: seq<UIElement>, parent: string): (rs: seq<UIElement>)
    ensures |rs| == |es|
  {
    if |es| == 0 then []
    else ChildrenWithReference(es[..|es| - 1], parent) + [WithReference(es[|es| - 1], parent)]
  }

  lemma {:induction false} ChildrenWithReferenceAt(es: seq<UIElement>, parent: string, i: nat)
    requires i < |es|
    ensures ChildrenWithReference(es, parent)[i] == WithReference(es[i], parent)
  {
    if i < |es| - 1 {
      ChildrenWithReferenceAt(es[..|es| - 1], parent, i);
    }
  }

  /** `set_reference`, rewriting the children one slot at a time. */
  method SetReference(e: UIElement, parent: string) returns (r: UIElement)
    ensures r == WithReference(e, parent)
    decreases e
  {
    var me := parent + "." + e.id;
    r := e.(reference := me);
    if e.elemType.CategoryElem? {
      var orig := e.elemType.cat.elems;
      var elems := orig;
      var i := 0;
      while i < |elems|
        invariant 0 <= i <= |elems| == |orig|
        invariant forall j :: 0 <= j < i ==> elems[j] == WithReference(orig[j], me)
        invariant forall j :: i <= j < |orig| ==> elems[j] == orig[j]
      {
        var child := SetReference(orig[i], me);
        elems := elems[i := child];
        i := i + 1;
      }
      forall j | 0 <= j < |orig|
        ensures elems[j] == ChildrenWithReference(orig, me)[j]
      {
        ChildrenWithReferenceAt(orig, me, j);
      }
      assert elems == ChildrenWithReference(orig, me);
      r := r.(elemType := CategoryElem(e.elemType.cat.(elems := elems)));
    }
  }

  /**
   * After `set_reference(parent)` the element's reference is `parent.id`,
   * and each child's is the element's reference, a dot and the child's id.
   * Ids, texts and the number of children do not change.
   */
  lemma SetReferencePaths(e: UIElement, parent: string)
    ensures WithReference(e, parent).reference == parent + "." + e.id
    ensures WithReference(e, parent).id == e.id && WithReference(e, parent).text == e.text
    ensures |WithReference(e, parent).Children()| == |e.Children()|
    ensures forall i :: 0 <= i < |e.Children()| ==>
      WithReference(e, parent).Children()[i].reference == WithReference(e, parent).reference + "." + e.Children()[i].id
      && WithReference(e, parent).Children()[i].id == e.Children()[i].id
  {
    forall i | 0 <= i < |e.Children()|
      ensures WithReference(e, parent).Children()[i] == WithReference(e.Children()[i], parent + "." + e.id)
    {
      ChildrenWithReferenceAt(e.Children(), parent + "." + e.id, i);
    }
  }

  /** Setting the same parent reference twice is setting it once. */
  lemma {:induction false} SetReferenceIdempotent(e: UIElement, parent: string)
    ensures WithReference(WithReference(e, parent), parent) == WithReference(e, parent)
    decreases e, 1
  {
    if e.elemType.CategoryElem? {
      ChildrenSetReferenceIdempotent(e.elemType.cat.elems, parent + "." + e.id);
    }
  }

  lemma {:induction false} ChildrenSetReferenceIdempotent(es: seq<UIElement>, parent: string)
    ensures ChildrenWithReference(ChildrenWithReference(es, parent), parent) == ChildrenWithReference(es, parent)
    decreases es, 0
  {
    if |es| > 0 {
      var front, last := es[..|es| - 1], es[|es| - 1];
      var once := ChildrenWithReference(es, parent);
      assert once[..|once| - 1] == ChildrenWithReference(front, parent);
      assert once[|once| - 1] == WithReference(last, parent);
      ChildrenSetReferenceIdempotent(front, parent);
      SetReferenceIdempotent(last, parent);
    }
  }

  // ---------------------------------------------------------------------
  // Depth-first search

  /**
   * The walk shared by both lookups and by validation: a node's own answer
   * `f(e)` if it has one, otherwise its children's, in order.
   */
  function Search<X>(e: UIElement, f: UIElement -> Option<X>): Option<X> {
    if f(e).Some? then f(e)
    else if e.elemType.CategoryElem? then SearchChildren(e.elemType.cat.elems, f)
    else None
  }

  function SearchChildren<X>(es: seq<UIElement>, f: UIElement -> Option<X>): Option<X> {
    if |es| == 0 then None
    else
      var r := SearchChildren(es[..|es| - 1], f);
      if r.Some? then r else Search(es[|es| - 1], f)
  }

  /** The nodes of the tree in pre-order: the node, then each child's subtree in turn. */
  function Flatten(e: UIElement): (s: seq<UIElement>)
    ensures |s| > 0 && s[0] == e
  {
    [e] + (if e.elemType.CategoryElem? then FlattenChildren(e.elemType.cat.elems) else [])
  }

  function FlattenChildren(es: seq<UIElement>): seq<UIElement> {
    if |es| == 0 then [] else FlattenChildren(es[..|es| - 1]) + Flatten(es[|es| - 1])
  }

  /** The first answer along a sequence of nodes. */
  function FirstSome<X>(s: seq<UIElement>, f: UIElement -> Option<X>): (r: Option<X>)
    ensures r.None? <==> forall i :: 0 <= i < |s| ==> f(s[i]).None?
    ensures r.Some? ==> exists i :: 0 <= i < |s| && f(s[i]) == r && forall j :: 0 <= j < i ==> f(s[j]).None?
  {
    if |s| == 0 then None
    else if f(s[0]).Some? then f(s[0])
    else
      var r := FirstSome(s[1..], f);
      assert forall i :: 1 <= i < |s| ==> s[i] == s[1..][i - 1];
      r
  }

  lemma {:induction false} FirstSomeConcat<X>(a: seq<UIElement>, b: seq<UIElement>, f: UIElement -> Option<X>)
    ensures FirstSome(a + b, f) == if FirstSome(a, f).Some? then FirstSome(a, f) else FirstSome(b, f)
  {
    if |a| > 0 {
      assert (a + b)[0] == a[0];
      assert (a + b)[1..] == a[1..] + b;
      FirstSomeConcat(a[1..], b, f);
    } else {
      assert a + b == b;
    }
  }

  /** The walk finds the first answer in pre-order. */
  lemma {:induction false} SearchIsPreOrder<X>(e: UIElement, f: UIElement -> Option<X>)
    ensures Search(e, f) == FirstSome(Flatten(e), f)
    decreases e, 1
  {
    var rest := if e.elemType.CategoryElem? then FlattenChildren(e.elemType.cat.elems) else [];
    FirstSomeConcat([e], rest, f);
    if e.elemType.CategoryElem? {
      SearchChildrenIsPreOrder(e.elemType.cat.elems, f);
    }
  }

  lemma {:induction false} SearchChildrenIsPreOrder<X>(es: seq<UIElement>, f: UIElement -> Option<X>)
    ensures SearchChildren(es, f) == FirstSome(FlattenChildren(es), f)
    decreases es, 0
  {
    if |es| > 0 {
      var front, last := es[..|es| - 1], es[|es| - 1];
      SearchChildrenIsPreOrder(front, f);
      SearchIsPreOrder(last, f);
      FirstSomeConcat(FlattenChildren(front), Flatten(last), f);
    }
  }

  /** A property node with the reference sought. */
  function PropertyMatch(reference: string): UIElement -> Option<Property> {
    (n: UIElement) => if n.elemType.PropertyElem? && n.reference == reference then Some(n.elemType.prop) else None
  }

  /**
   * `get_property_by_reference`: the property of the first property node in
   * pre-order whose reference is the one sought; text, stat, button and
   * category nodes never match themselves.
   */
  function PropertyByReference(e: UIElement, reference: string): (r: Option<Property>)
    ensures r == FirstSome(Flatten(e), PropertyMatch(reference))
    ensures r.None? <==> forall i :: 0 <= i < |Flatten(e)| ==>
      !(Flatten(e)[i].elemType.PropertyElem? && Flatten(e)[i].reference == reference)
    ensures r.Some? ==> exists i :: (0 <= i < |Flatten(e)| &&
      Flatten(e)[i].reference == reference && Flatten(e)[i].elemType == PropertyElem(r.value))
  {
    SearchIsPreOrder(e, PropertyMatch(reference));
    Search(e, PropertyMatch(reference))
  }

  /** A node with the reference sought, of any kind. */
  function ElementMatch(reference: string): UIElement -> Option<UIElement> {
    (n: UIElement) => if n.reference == reference then Some(n) else None
  }

  /**
   * `get_element_by_reference_mut`: the element itself when its reference
   * matches, otherwise the first match among its descendants in pre-order.
   */
  function ElementByReference(e: UIElement, reference: string): (r: Option<UIElement>)
    ensures r == FirstSome(Flatten(e), ElementMatch(reference))
    ensures e.reference == reference ==> r == Some(e)
    ensures r.None? <==> forall i :: 0 <= i < |Flatten(e)| ==> Flatten(e)[i].reference != reference
    ensures r.Some? ==> r.value.reference == reference && r.value in Flatten(e)
  {
    SearchIsPreOrder(e, ElementMatch(reference));
    Search(e, ElementMatch(reference))
  }

  /** The error of a property node whose validator refuses its value. */
  function ValidatorFailure(n: UIElement): Option<string> {
    if n.elemType.PropertyElem? && n.elemType.prop.validate(n.elemType.prop.value).Fail?
    then Some(n.elemType.prop.validate(n.elemType.prop.value).error)
    else None
  }

  /**
   * `validate_properties`: `Ok` exactly when every property in the subtree
   * passes its validator; otherwise the error of the first one in
   * pre-order that fails.
   */
  function Validate(e: UIElement): (o: Outcome<string>)
    ensures o.Pass? <==> forall i :: 0 <= i < |Flatten(e)| ==> ValidatorFailure(Flatten(e)[i]).None?
    ensures o.Fail? ==> exists i :: (0 <= i < |Flatten(e)| &&
      ValidatorFailure(Flatten(e)[i]) == Some(o.error) && forall j :: 0 <= j < i ==> ValidatorFailure(Flatten(e)[j]).None?)
  {
    SearchIsPreOrder(e, ValidatorFailure);
    match Search(e, ValidatorFailure)
    case None => Pass
    case Some(err) => Fail(err)
  }

  // ---------------------------------------------------------------------
  // Reset

  /** What `reset_properties` makes of an element: every property in the subtree back to its initial value. */
  function Reset(e: UIElement): UIElement {
    match e.elemType
    case CategoryElem(cat) => e.(elemType := CategoryElem(cat.(elems := ResetChildren(cat.elems))))
    case PropertyElem(p) => e.(elemType := PropertyElem(p.(value := p.initialValue)))
    case _ => e
  }

  function ResetChildren(es: seq<UIElement>): (rs: seq<UIElement>)
    ensures |rs| == |es|
  {
    if |es| == 0 then [] else ResetChildren(es[..|es| - 1]) + [Reset(es[|es| - 1])]
  }

  lemma {:induction false} ResetChildrenAt(es: seq<UIElement>, i: nat)
    requires i < |es|
    ensures ResetChildren(es)[i] == Reset(es[i])
  {
    if i < |es| - 1 {
      ResetChildrenAt(es[..|es| - 1], i);
    }
  }

  /** `reset_properties`, rewriting the children one slot at a time; the scene it is given is not used. */
  method ResetProperties(e: UIElement) returns (r: UIElement)
    ensures r == Reset(e)
    decreases e
  {
    r := e;
    match e.elemType {
      case CategoryElem(cat) =>
        var elems := cat.elems;
        var i := 0;
        while i < |elems|
          invariant 0 <= i <= |elems| == |cat.elems|
          invariant forall j :: 0 <= j < i ==> elems[j] == Reset(cat.elems[j])
          invariant forall j :: i <= j < |elems| ==> elems[j] == cat.elems[j]
        {
          var child := ResetProperties(cat.elems[i]);
          elems := elems[i := child];
          i := i + 1;
        }
        forall j | 0 <= j < |elems|
          ensures elems[j] == ResetChildren(cat.elems)[j]
        {
          ResetChildrenAt(cat.elems, j);
        }
        assert elems == ResetChildren(cat.elems);
        r := e.(elemType := CategoryElem(cat.(elems := elems)));
      case PropertyElem(p) =>
        r := e.(elemType := PropertyElem(p.(value := p.initialValue)));
      case _ =>
    }
  }

  /** Resetting twice is resetting once. */
  lemma {:induction false} ResetIdempotent(e: UIElement)
    ensures Reset(Reset(e)) == Reset(e)
    decreases e, 1
  {
    if e.elemType.CategoryElem? {
      ResetChildrenIdempotent(e.elemType.cat.elems);
    }
  }

  lemma {:induction false} ResetChildrenIdempotent(es: seq<UIElement>)
    ensures ResetChildren(ResetChildren(es)) == ResetChildren(es)
    decreases es, 0
  {
    if |es| > 0 {
      var once := ResetChildren(es);
      assert once[..|once| - 1] == ResetChildren(es[..|es| - 1]);
      ResetChildrenIdempotent(es[..|es| - 1]);
      ResetIdempotent(es[|es| - 1]);
    }
  }

  /** The property found after a reset is the one found before, holding its initial value. */
  function Restored(p: Option<Property>): Option<Property> {
    if p.None? then None else Some(p.value.(value := p.value.initialValue))
  }

  lemma {:induction false} ResetThenLookup(e: UIElement, reference: string)
    ensures Search(Reset(e), PropertyMatch(reference)) == Restored(Search(e, PropertyMatch(reference)))
    decreases e, 1
  {
    if e.elemType.CategoryElem? {
      ResetThenLookupChildren(e.elemType.cat.elems, reference);
    }
  }

  lemma {:induction false} ResetThenLookupChildren(es: seq<UIElement>, reference: string)
    ensures SearchChildren(ResetChildren(es), PropertyMatch(reference)) == Restored(SearchChildren(es, PropertyMatch(reference)))
    decreases es, 0
  {
    if |es| > 0 {
      var rs := ResetChildren(es);
      assert rs[..|rs| - 1] == ResetChildren(es[..|es| - 1]);
      ResetThenLookupChildren(es[..|es| - 1], reference);
      ResetThenLookup(es[|es| - 1], reference);
    }
  }

  // ---------------------------------------------------------------------
  // Clicks

  /**
   * `clicked` on an element that is not a button: a category flips
   * `collapsed`; a property asks the UI to start editing it from its
   * value's text, unless that reference is already being edited; other
   * elements do nothing.  The result is the new element and the argument
   * of the `set_editing` call, if one is made.
   */
  function Clicked(e: UIElement, editing: Option<Editing>, formatFloat: real -> string): (r: (UIElement, Option<Editing>))
    requires !e.elemType.ButtonElem?
    ensures e.elemType.CategoryElem? ==>
      r.1.None? && r.0.elemType.CategoryElem? && r.0.elemType.cat.collapsed == !e.elemType.cat.collapsed
      && r.0.elemType.cat.elems == e.elemType.cat.elems
      && r.0.(elemType := e.elemType) == e
    ensures e.elemType.PropertyElem? ==>
      r.0 == e
      && (r.1.None? <==> editing.Some? && editing.value.reference == e.reference)
      && (r.1.Some? ==> r.1.value == Editing(e.reference, ToString(e.elemType.prop.value, formatFloat)))
    ensures (e.elemType.TextElem? || e.elemType.StatElem?) ==> r == (e, None)
  {
    match e.elemType
    case CategoryElem(cat) => (e.(elemType := CategoryElem(cat.(collapsed := !cat.collapsed))), None)
    case PropertyElem(p) =>
      if editing.Some? && editing.value.reference == e.reference then (e, None)
      else (e, Some(Editing(e.reference, ToString(p.value, formatFloat))))
    case _ => (e, None)
  }

  /** Two clicks on a category restore it. */
  lemma ClickTwiceRestoresCategory(e: UIElement, editing: Option<Editing>, formatFloat: real -> string)
    requires e.elemType.CategoryElem?
    ensures Clicked(Clicked(e, editing, formatFloat).0, editing, formatFloat).0 == e
  {
  }

  /** Once a property is being edited, clicking it again starts nothing new. */
  lemma ClickWhileEditingKeepsEdit(e: UIElement, editing: Option<Editing>, formatFloat: real -> string)
    requires e.elemType.PropertyElem?
    requires Clicked(e, editing, formatFloat).1.Some?
    ensures Clicked(e, Clicked(e, editing, formatFloat).1, formatFloat) == (e, None)
  {
  }
}
