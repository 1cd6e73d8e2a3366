/** The render settings, their defaults and the fields that edit them (src/gui/settings.rs). */
module RenderSettings {
  import opened Wrappers
  import opened Primitives
  import opened Constants
  import opened Colors
  import opened TextFormats
  import opened UIElements

  /** `ViewMode`; the parallel light of `Simple` is not part of this model. */
  datatype ViewMode = Simple(color: Color) | Norm | HighDef | BVH

  /** `VIEW_MODE` (src/lib.rs). */
  const VIEW_MODE: ViewMode := HighDef

  /** `Settings`; `usize` is modelled by `nat`. */
  datatype Settings = Settings(
    reflections: bool,
    indirect: bool,
    iterations: nat,
    depth: nat,
    antiAliasing: real,
    viewMode: ViewMode)

  /** `Settings::default`. */
  function DefaultSettings(): (s: Settings)
    ensures s.reflections && s.indirect
    ensures s.iterations == MAX_ITERATIONS && s.depth == MAX_DEPTH
    ensures s.antiAliasing == ANTIALIASING && s.viewMode == VIEW_MODE
  {
    Settings(true, true, MAX_ITERATIONS, MAX_DEPTH, ANTIALIASING, VIEW_MODE)
  }

  /** The part of the scene the submit callbacks change: its settings and its dirty flag. */
  class Scene {
    var settings: Settings
    var dirty: bool

    constructor (s: Settings, d: bool)
      ensures settings == s && dirty == d
    {
      settings := s;
      dirty := d;
    }

    /** The submit callback of the iterations field: an unsigned value becomes the iteration count; any other value is ignored. */
    method SubmitIterations(value: Value)
      modifies this
      ensures value.Unsigned? ==> settings == old(settings).(iterations := value.n) && dirty
      ensures !value.Unsigned? ==> settings == old(settings) && dirty == old(dirty)
    {
      if value.Unsigned? {
        settings := settings.(iterations := value.n);
        dirty := true;
      }
    }

    /** The submit callback of the reflections field: a boolean switches reflections; any other value is ignored. */
    method SubmitReflections(value: Value)
      modifies this
      ensures value.Bool? ==> settings == old(settings).(reflections := value.b) && dirty
      ensures !value.Bool? ==> settings == old(settings) && dirty == old(dirty)
    {
      if value.Bool? {
        settings := settings.(reflections := value.b);
        dirty := true;
      }
    }
  }

  /** The validator of both fields accepts every value. */
  function AcceptAll(v: Value): (o: Outcome<string>)
    ensures o.Pass?
  {
    Pass
  }

  /** `self.iterations as u32`: the count modulo 2^32. */
  function IterationsShown(s: Settings): (n: U32)
    ensures s.iterations < U32_LIMIT ==> n == s.iterations
  {
    s.iterations % U32_LIMIT
  }

  /**
   * `get_fields`: one "Render settings" category whose children are the
   * iterations field (an unsigned property) and the reflections checkbox
   * (a boolean property), in that order.  The reference argument is unused.
   */
  function GetFields(s: Settings, reference: string, ui: UISettings): (fields: seq<UIElement>)
    ensures |fields| == 1
    ensures fields[0].id == "settings" && fields[0].text == "Render settings"
    ensures fields[0].elemType.CategoryElem? && !fields[0].elemType.cat.collapsed
    ensures |fields[0].Children()| == 2
    ensures fields[0].Children()[0].id == "iterations" && fields[0].Children()[0].text == "Iterations"
    ensures fields[0].Children()[0].elemType == PropertyElem(NewProperty(Unsigned(IterationsShown(s)), AcceptAll, ui))
    ensures fields[0].Children()[1].id == "chk_reflect" && fields[0].Children()[1].text == "Reflections"
    ensures fields[0].Children()[1].elemType == PropertyElem(NewProperty(Bool(s.reflections), AcceptAll, ui))
  {
    var iterations := UIElements.New("Iterations", "iterations", PropertyElem(NewProperty(Unsigned(IterationsShown(s)), AcceptAll, ui)), ui);
    var reflections := UIElements.New("Reflections", "chk_reflect", PropertyElem(NewProperty(Bool(s.reflections), AcceptAll, ui)), ui);
    var category := DefaultCategory().(elems := [iterations, reflections]);
    [UIElements.New("Render settings", "settings", CategoryElem(category), ui)]
  }

  /** The settings fields never fail validation. */
  lemma FieldsAlwaysValidate(s: Settings, reference: string, ui: UISettings)
    ensures Validate(GetFields(s, reference, ui)[0]).Pass?
  {
    var f := GetFields(s, reference, ui)[0];
    var flat := Flatten(f);
    forall i | 0 <= i < |flat|
      ensures ValidatorFailure(flat[i]).None?
    {
      FlattenedAreSettingsNodes(f, i);
    }
  }

  /** The nodes of the settings tree are the category and its two properties. */
  lemma FlattenedAreSettingsNodes(f: UIElement, i: nat)
    requires f.elemType.CategoryElem? && |f.Children()| == 2
    requires f.Children()[0].elemType.PropertyElem? && f.Children()[0].elemType.prop.validate == AcceptAll
    requires f.Children()[1].elemType.PropertyElem? && f.Children()[1].elemType.prop.validate == AcceptAll
    requires i < |Flatten(f)|
    ensures ValidatorFailure(Flatten(f)[i]).None?
  {
    var c := f.Children();
    var x := c[0];
    var y := c[1];
    assert c == [x, y];
    assert c[..1] == [x];
    assert FlattenChildren([]) == [];
    assert FlattenChildren([x]) == Flatten(x);
    assert FlattenChildren(c) == Flatten(x) + Flatten(y);
    assert Flatten(x) == [x];
    assert Flatten(y) == [y];
    assert Flatten(f) == [f, x, y];
  }

  /**
   * Showing the settings and submitting the shown iteration count leaves
   * the settings as they were, when the count fits in `u32`, and marks the
   * scene dirty.
   */
  method SubmitShownIterations(scene: Scene, reference: string, ui: UISettings)
    requires scene.settings.iterations < U32_LIMIT
    modifies scene
    ensures scene.settings == old(scene.settings) && scene.dirty
  {
    var fields := GetFields(scene.settings, reference, ui);
    var shown := fields[0].Children()[0].elemType.prop.value;
    scene.SubmitIterations(shown);
  }

  /** Editing the shown iteration count without changing its text gives back the same value. */
  lemma IterationsEditRoundTrip(s: Settings, reference: string, ui: UISettings, formatFloat: real -> string, parseFloat: string -> Option<real>)
    ensures var p := GetFields(s, reference, ui)[0].Children()[0].elemType.prop;
      p.GetValueFromString(ToString(p.value, formatFloat), parseFloat) == Ok(Unsigned(IterationsShown(s)))
  {
    var p := GetFields(s, reference, ui)[0].Children()[0].elemType.prop;
    EditRoundTrip(p, formatFloat, parseFloat);
  }
}
