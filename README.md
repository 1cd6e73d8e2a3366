# RT: a model of the ray tracer's core

RT is a small ray tracer. It renders a scene of shapes (spheres, rectangles, implicit surfaces) with
materials (metal, diffuse), and it draws an in-window settings GUI over the picture. The GUI is a
tree of widgets (`UIElement`) kept in boxes (`UIBox`) that a registry (`UI`) owns.

This project models three parts of that core in Dafny and proves what the code promises:

- **Shapes and hit selection**:
  - the sphere intersection with its discriminant and near-root filter;
  - the rectangle's corners and its plane plus two-triangle test;
  - the implicit surface's root filter, gradient and texture wrap;
  - the closest-hit loop and `cast_ray`.
- **Scene records**:
  - `Element` and `ComposedElement`;
  - `Color` arithmetic and byte conversion;
  - the `Metal` and `Diffuse` materials;
  - the render `Settings` with their fields and submit callbacks.
- **Widget state**:
  - the element tree: height, reference paths, lookups, reset, validation, clicks and value parsing;
  - the box height computation;
  - the style builder and its presets;
  - the `UI` registry: box numbering, the dirty flag, pressed keys and click dispatch;
  - the legacy `Gui` panel: its hit tests and setters.

Modelling conventions:

- Floating point is modelled by `real`. Each `as` cast from a float to an integer is written out as truncation toward zero with saturation.
- `u32` values that the code parses or truncates are a `U32` subtype of `int`. Other integer widths are `nat`.
- Code the model cannot see is a function-valued parameter. This covers:
  - `sqrt`, `normalize` and `cross`;
  - the backing plane and the triangle test;
  - the `meval` evaluator and the Newton solver;
  - text measurement and widget layout positions;
  - float formatting and parsing;
  - `take_element`.
- Values are datatypes; structs whose fields the code overwrites are classes.
  - Datatypes: the widget tree, `Style` and `StyleBuilder`, `Color`, `Metal`.
  - Classes: `Sphere`, `Rectangle`, `Any`, `Element`, `ComposedElement`, `Diffuse`, `UIBox`, `UI`, `Gui`, and the part of the scene the settings callbacks change.
- In-place tree rewrites are methods with loops, proved against the functions that define the new tree. These are `set_reference` and `reset_properties`, plus the height sums.

Where the code and its description disagree, the model follows the code:

- The element tree names its styles `TextFormat::new_editing_format`, `new_btn_format` and `new_category_format`, where the style module calls them `editing`, `button` and `category`. The model maps each name to its preset.
- `uibox.rs` reads `gui.settings()` and `elem.pos` on types that do not have them. The model takes those values as parameters.

## Model

| member | source | states |
|---|---|---|
| Spheres.Sphere.constructor | src/model/shapes/sphere.rs:50-56 | the position, direction and radius are stored unchanged |
| Spheres.Sphere.SetPos | src/model/shapes/sphere.rs:45 | only the position changes |
| Spheres.Sphere.SetDir | src/model/shapes/sphere.rs:46 | only the direction changes |
| Spheres.Sphere.SetRadius | src/model/shapes/sphere.rs:47 | only the radius changes |
| Spheres.Sphere.Intersect | src/model/shapes/sphere.rs:17-31 | a negative discriminant gives none; otherwise there is a result exactly when the near root exceeds 0.1. A result is two distances with the near one first and beyond 0.1, and the two average to the projection of the centre on the ray |
| Spheres.IntersectRootsProduct | src/model/shapes/sphere.rs:19-28 | the product of the two roots is \|pos−origin\|² − r², as for the roots of the ray–sphere quadratic |
| Spheres.IntersectOnSurface | src/model/shapes/sphere.rs:19-28 | with a unit direction, each returned distance puts the ray's point on the sphere's surface |
| Spheres.TestIntersect | src/model/shapes/sphere.rs:63-68 | unit sphere at the origin, ray from (−5,0,0) along +x: [4, 6] |
| Spheres.TestIntersect2 | src/model/shapes/sphere.rs:70-75 | sphere at (0,0,2) of radius 1, ray from the origin along +z: [1, 3] |
| Spheres.TestIntersect3 | src/model/shapes/sphere.rs:77-82 | the same sphere, ray along +x: no hit |
| Spheres.TestFromCentre | src/model/shapes/sphere.rs:27-30 | a ray starting at the centre has a negative near root and gets no hit, although its far root is positive |
| Rectangles.CornersCentred | src/model/shapes/rectangle.rs:221-226 | opposite corners average to the centre: a + d = b + c = 2·pos |
| Rectangles.Rectangle.constructor | src/model/shapes/rectangle.rs:220-230 | the arguments are stored, the corners are pos ± l ± w from the normalised half-edges, and the plane passes through corner a with normal normalize(dir_l × dir_w) |
| Rectangles.Rectangle.SetPos | src/model/shapes/rectangle.rs:213 | only the position changes; the corners and plane are not recomputed |
| Rectangles.Rectangle.SetLength | src/model/shapes/rectangle.rs:214 | only the length changes; the corners and plane are not recomputed |
| Rectangles.Rectangle.SetWidth | src/model/shapes/rectangle.rs:215 | only the width changes; the corners and plane are not recomputed |
| Rectangles.Rectangle.SetDirL | src/model/shapes/rectangle.rs:216 | only dir_l changes; the corners and plane are not recomputed |
| Rectangles.Rectangle.SetDirW | src/model/shapes/rectangle.rs:217 | only dir_w changes; the corners and plane are not recomputed |
| Rectangles.Rectangle.Intersect | src/model/shapes/rectangle.rs:34-52 | no plane hit gives none. Otherwise the result is exactly [the plane's first distance] when that point lies in triangle (d,b,c) or triangle (a,b,c), and none when it lies in neither |
| Rectangles.Rectangle.OuterIntersect | src/model/shapes/rectangle.rs:54-56 | the same as `intersect`, whatever the displacement factor |
| Rectangles.Rectangle.IntersectDisplacement | src/model/shapes/rectangle.rs:58-60 | the same as `intersect`, whatever the element and scene |
| Rectangles.Rectangle.Norm | src/model/shapes/rectangle.rs:65-67 | the backing plane's normal |
| Rectangles.Rectangle.Project | src/model/shapes/rectangle.rs:62-64 | the default projection |
| AnyShapes.FailedEvaluationReadsMinusOne | src/model/shapes/any.rs:21-29 | where the equation cannot be evaluated, the function the solver sees and the one the gradient sees both read −1 |
| AnyShapes.CentralDifferenceOfQuadratic | src/model/shapes/any.rs:125-137 | the central difference with δ = 1e−6 is exact on a quadratic: 2as + b |
| AnyShapes.GradientOfQuadric | src/model/shapes/any.rs:125-137 | for f = a\|p\|² + b·p + k, the gradient is 2a·p + b |
| AnyShapes.ConstantAxis | src/model/shapes/any.rs:55-60 | the axis is (0,0,1) exactly when the normal is (0,1,0), and (0,1,0) otherwise |
| AnyShapes.WrapIsFraction | src/model/shapes/any.rs:67-74 | for components within i32 range, c − trunc(c), plus 1 when negative, is the fractional part of c and lies in [0, 1) |
| AnyShapes.Any.constructor | src/model/shapes/any.rs:113-115 | the equation is stored and the position is the origin |
| AnyShapes.Any.SetEquation | src/model/shapes/any.rs:108-110 | only the equation changes |
| AnyShapes.Any.Clone | src/model/shapes/any.rs:118-123 | a fresh surface with the same equation and position |
| AnyShapes.Any.Intersect | src/model/shapes/any.rs:19-49 | some result exactly when the solver finds a positive root; the result is then that single root |
| AnyShapes.Any.Norm | src/model/shapes/any.rs:78-90 | the normalised central-difference gradient of the equation at the hit |
| AnyShapes.NormOfQuadric | src/model/shapes/any.rs:78-90 | for a quadric equation, the normal is normalize(2a·hit + b) |
| AnyShapes.Any.Project | src/model/shapes/any.rs:51-76 | k is the normal, i and j come from the constant axis by cross products, and u and v are the wrapped components, each in [0, 1) within i32 range |
| Render.AsWrittenNeverHits | src/render/mod.rs:46-58 | the loop as written returns none for every scene and ray |
| Render.GetClosestHit | src/render/mod.rs:46-58 | the loop as written visits the elements in order, changes nothing, and returns none |
| Render.ClosestIsFirstMinimum | src/render/mod.rs:50-53 | the intended search has a hit exactly when some element is hit. The hit found is no farther than any other, and strictly closer than every hit before it, so the earlier element wins ties |
| Render.GetClosestHitFixed | src/render/mod.rs:46-58 | the intended loop computes the first-minimum search |
| Render.ShadeHit | src/render/mod.rs:40-43 | the match of `cast_ray`: no hit gives black; a hit reaches `unimplemented!()`, a panic |
| Render.CastRay | src/render/mod.rs:39-44 | `cast_ray` as written, over `get_closest_hit` as written: black for every scene and ray, so the panicking arm is never reached |
| Render.CastRayFixed | src/render/mod.rs:39-44 | `cast_ray` over the intended search: black exactly when nothing is hit; a hit reaches the panic |
| Render.CastRayAsWrittenAlwaysBlack | src/render/mod.rs:39-58 | when a ray hits some element, `cast_ray` as written still gives black, while over the intended search it reaches the panic |
| Elements.Element.constructor | src/model/mod.rs:19-26 | the shape and material are stored, the id is 0 and there is no composed id |
| Elements.Element.SetMaterial | src/model/mod.rs:51-53 | only the material changes |
| Elements.Element.SetShape | src/model/mod.rs:55-57 | only the shape changes |
| Elements.Element.SetId | src/model/mod.rs:59-61 | `id()` returns the new id; nothing else changes |
| Elements.Element.SetComposedId | src/model/mod.rs:63-65 | `composed_id()` returns it wrapped in `Some`; nothing else changes |
| Elements.ElementLifecycle | src/model/mod.rs:19-65 | after construction and both id setters, the getters return the shape, material, id and composed id |
| Elements.ComposedElement.constructor | src/model/mod.rs:75-80 | the composed shape is stored with id 0 |
| Elements.ComposedElement.Material | src/model/mod.rs:90-92 | the composed shape's material |
| Elements.ComposedElement.SetId | src/model/mod.rs:94-96 | `id()` returns the new id; the shape is unchanged |
| Elements.ComposedElement.Update | src/model/mod.rs:102-104 | the shape is updated; the id is unchanged |
| Elements.ComposedLifecycle | src/model/mod.rs:75-100 | the set id is read back with the shape unchanged |
| Colors.New | src/model/materials/mod.rs:20-33 | the getters return the three arguments |
| Colors.Color.Add | src/model/materials/mod.rs:67-109 | the channel-wise sum, for every owned and borrowed pairing; subtracting the right operand gives back the left |
| Colors.Color.Mul | src/model/materials/mod.rs:127-169 | the channel-wise product; white is its identity and black absorbs |
| Colors.Color.Scale | src/model/materials/mod.rs:171-202 | `Color * f64` multiplies each channel by the number; 1 is the identity and 0 gives black |
| Colors.ScaleLeft | src/model/materials/mod.rs:182-213 | `f64 * Color` multiplies each channel by the number |
| Colors.Color.Div | src/model/materials/mod.rs:215-257 | the channel-wise quotient, for non-zero channels; multiplying back by the divisor gives the dividend |
| Colors.Color.DivScalar | src/model/materials/mod.rs:259-268 | `Color / f64` for a non-zero number; scaling back by the number gives the colour |
| Colors.ScalarDiv | src/model/materials/mod.rs:270-279 | `f64 / Color` for a non-zero number; scaling the result by the number gives the colour back, so it divides the colour by the number |
| Colors.Color.AsWeight | src/model/materials/mod.rs:62-64 | the sum of the three channels, non-negative for a colour with non-negative channels |
| Colors.Color.Clamp | src/model/materials/mod.rs:48-54 | for min ≤ max, every channel lands in [min, max]; channels already inside are kept, and those outside go to the nearer bound |
| Colors.ClampIdempotent | src/model/materials/mod.rs:48-54 | clamping twice is clamping once |
| Colors.AsWeightLinear | src/model/materials/mod.rs:62-64 | the weight is additive and scales with the colour |
| Colors.Color.ToRgba | src/model/materials/mod.rs:35-42 | alpha is 255 and each channel is the saturating truncation of 255·channel; in [0, 1] that is the floor |
| Colors.FromRgba | src/model/materials/mod.rs:44-46 | each channel is byte/255, in [0, 1] |
| Colors.RgbaRoundTrip | src/model/materials/mod.rs:35-46 | `to_rgba(from_rgba(px))` restores the three bytes and sets alpha to 255 |
| Colors.ColorRoundTripError | src/model/materials/mod.rs:35-46 | a colour in [0, 1] returns from a byte trip less than 1/255 below itself on each channel |
| Colors.AddMulCommute | src/model/materials/mod.rs:67-169 | colour addition and multiplication commute for every owned or borrowed operand combination |
| Colors.ScaleSidesAgree | src/model/materials/mod.rs:171-213 | scaling by a number from either side agrees, and equals multiplying by a grey colour |
| Colors.ScalarDivIsDivScalar | src/model/materials/mod.rs:259-301 | `f64 / Color` divides each channel by the number, exactly as `Color / f64` does, rather than dividing the number by each channel |
| Colors.AddAssign | src/model/materials/mod.rs:111-125 | the in-place update leaves the colour equal to the sum |
| Metals.NewMetal | src/model/materials/metal.rs:13-15 | the colour, metalness and roughness are stored unchanged |
| Metals.Metal.ColorAt | src/model/materials/metal.rs:21-23 | the stored colour, whatever the hit |
| Metals.Metal.NormAt | src/model/materials/metal.rs:24-26 | always (0,0,1) |
| Metals.UniformOverHits | src/model/materials/metal.rs:21-26 | two hits get the same colour and normal |
| Metals.Metal.ReflectionCoef | src/model/materials/metal.rs:27-29 | the metalness |
| Metals.Metal.RefractionCoef | src/model/materials/metal.rs:30-32 | zero |
| Metals.Metal.Roughness | src/model/materials/metal.rs:33-35 | the square of the stored roughness, never negative |
| Metals.Metal.NeedsProjection | src/model/materials/metal.rs:36-38 | false |
| Materials.NewMaterial | src/model/materials/mod.rs:313-315 | a metal of that colour with no reflection and no roughness |
| Materials.DefaultMaterial | src/model/materials/mod.rs:316-318 | a black metal with metalness and roughness 0 |
| Diffuses.Diffuse.constructor | src/model/materials/diffuse.rs:21-43 | each argument lands in its same-named field: emissive fourth, transparency fifth, refraction last |
| Diffuses.Default | src/model/materials/diffuse.rs:45-57 | colour Value(1, Color), metalness 0, roughness 0.5, emissive 0, transparency 1, normal variation Value(1, Float), opacity Value((0.5,0.5,1), Vector), displacement 1, refraction 0 |
| Diffuses.Diffuse.SetColor | src/model/materials/diffuse.rs:66-68 | the getter returns the new value; the other eight fields are unchanged |
| Diffuses.Diffuse.SetNorm | src/model/materials/diffuse.rs:73-75 | the getter returns the new value; the other eight fields are unchanged |
| Diffuses.Diffuse.SetMetalness | src/model/materials/diffuse.rs:80-82 | the getter returns the new value; the other eight fields are unchanged |
| Diffuses.Diffuse.SetRefraction | src/model/materials/diffuse.rs:87-89 | the getter returns the new value; the other eight fields are unchanged |
| Diffuses.Diffuse.SetTransparency | src/model/materials/diffuse.rs:94-96 | the getter returns the new value; the other eight fields are unchanged |
| Diffuses.Diffuse.SetRoughness | src/model/materials/diffuse.rs:101-103 | the getter returns the new value; the other eight fields are unchanged |
| Diffuses.Diffuse.SetEmissive | src/model/materials/diffuse.rs:108-110 | the getter returns the new value; the other eight fields are unchanged |
| Diffuses.Diffuse.SetOpacity | src/model/materials/diffuse.rs:115-117 | the getter returns the new value; the other eight fields are unchanged |
| Diffuses.Diffuse.SetDisplacement | src/model/materials/diffuse.rs:122-124 | the getter returns the new value; the other eight fields are unchanged |
| RenderSettings.DefaultSettings | src/gui/settings.rs:40-51 | reflections and indirect on, iterations MAX_ITERATIONS, depth MAX_DEPTH, anti-aliasing ANTIALIASING, view mode VIEW_MODE |
| RenderSettings.Scene.SubmitIterations | src/gui/settings.rs:61-66 | an unsigned value sets the iteration count and marks the scene dirty; any other value changes nothing |
| RenderSettings.Scene.SubmitReflections | src/gui/settings.rs:77-82 | a boolean sets reflections and marks the scene dirty; any other value changes nothing |
| RenderSettings.AcceptAll | src/gui/settings.rs:67 | the validator accepts every value |
| RenderSettings.IterationsShown | src/gui/settings.rs:60 | the count shown is the count itself whenever it fits in u32 |
| RenderSettings.GetFields | src/gui/settings.rs:54-95 | one expanded "Render settings" category, id "settings", whose children are the unsigned "iterations" field and the boolean "chk_reflect" field, in that order, showing the current values |
| RenderSettings.FieldsAlwaysValidate | src/gui/settings.rs:67-83 | validating the settings tree always passes |
| RenderSettings.SubmitShownIterations | src/gui/settings.rs:54-66 | submitting the iteration count the field shows leaves the settings as they were, when the count fits in u32, and marks the scene dirty |
| RenderSettings.IterationsEditRoundTrip | src/gui/settings.rs:60 | editing the iterations field without changing its text gives back the value it shows |
| Decimal.NatToString | src/gui/elements/ui.rs:189 | the decimal string is non-empty, all digits, and starts with '0' only for 0 |
| Decimal.NatToStringInjective | src/gui/elements/ui.rs:189 | different numbers get different strings, so the numbered boxes get distinct references |
| Decimal.ParseU32 | src/gui/elements/uielement.rs:410-416 | `str::parse::<u32>`: an optional '+', then at least one digit and nothing else, with the value below 2^32 |
| Decimal.ParseU32RoundTrip | src/gui/elements/uielement.rs:41 | parsing the decimal string of a u32, with or without a leading '+', gives the number back |
| UIElements.ToString | src/gui/elements/uielement.rs:36-45 | text is itself, a boolean is "true"/"false", a float goes through the float formatter, and an unsigned value's string parses back to it |
| UIElements.Property.GetValueFromString | src/gui/elements/uielement.rs:395-418 | a boolean is refused ("Bool value edited ?"); text is accepted as it is. Unsigned succeeds exactly when the text parses as a u32, otherwise "The value must be a proper unsigned integer"; float likewise with its own message. Every success has the current value's variant |
| UIElements.NewProperty | src/gui/elements/uielement.rs:380-393 | the value is also the initial value, the editing style is the editing preset, and the validator is stored |
| UIElements.EditRoundTrip | src/gui/elements/uielement.rs:36-45 | reading back the string a non-boolean value is edited from gives the value again; for a float this needs the formatter and parser to be inverse |
| UIElements.DefaultCategory | src/gui/elements/uielement.rs:359-364 | no elements, not collapsed |
| UIElements.BaseFormat | src/gui/elements/uielement.rs:60-74 | the style of each kind: button, category and field presets; a stat gets the default style and a text the field style, both without background |
| UIElements.New | src/gui/elements/uielement.rs:87-96 | visible, size (0,0), the name as text, the id as both id and reference, and the base style of its kind |
| UIElements.ComputeHeight | src/gui/elements/uielement.rs:98-111 | the recursive loop computes `Height`: 0 when hidden, the text height alone for anything but an expanded category, which adds each child's height plus a margin |
| UIElements.ChildrenHeightCountsEveryMargin | src/gui/elements/uielement.rs:104-108 | an expanded category's children add at least one margin each |
| UIElements.HiddenChildAddsMargin | src/gui/elements/uielement.rs:98-108 | a hidden child still adds its margin |
| UIElements.ChildrenWithReference | src/gui/elements/uielement.rs:126-134 | every child is rewritten, none added or lost |
| UIElements.SetReference | src/gui/elements/uielement.rs:126-134 | the in-place loop computes `WithReference` |
| UIElements.SetReferencePaths | src/gui/elements/uielement.rs:126-134 | the element's reference becomes parent + "." + id; each child is set from that new reference; id, text and child count are kept |
| UIElements.SetReferenceIdempotent | src/gui/elements/uielement.rs:126-134 | setting the same parent twice is setting it once |
| UIElements.ChildrenSetReferenceIdempotent | src/gui/elements/uielement.rs:130-132 | the same for a list of children |
| UIElements.Flatten | src/gui/elements/uielement.rs:136-169 | the pre-order listing starts with the element itself |
| UIElements.FirstSome | src/gui/elements/uielement.rs:136-169 | none exactly when no node answers; otherwise the answer of the first node that does |
| UIElements.FirstSomeConcat | src/gui/elements/uielement.rs:136-169 | the first answer in a concatenation comes from the first part when it has one |
| UIElements.SearchIsPreOrder | src/gui/elements/uielement.rs:136-169 | the recursive walk finds the first answer in pre-order |
| UIElements.SearchChildrenIsPreOrder | src/gui/elements/uielement.rs:136-169 | the same over a list of children |
| UIElements.PropertyByReference | src/gui/elements/uielement.rs:136-153 | none exactly when no property node has that reference; otherwise the property of the first such node in pre-order |
| UIElements.ElementByReference | src/gui/elements/uielement.rs:155-169 | the element itself when it matches; none exactly when no node matches; otherwise the first match in pre-order |
| UIElements.Validate | src/gui/elements/uielement.rs:181-190 | ok exactly when every property in the subtree passes its validator; otherwise the first failure in pre-order |
| UIElements.ResetChildren | src/gui/elements/uielement.rs:171-179 | every child is reset, none added or lost |
| UIElements.ResetProperties | src/gui/elements/uielement.rs:171-179 | the in-place loop computes `Reset` |
| UIElements.ResetIdempotent | src/gui/elements/uielement.rs:171-179 | resetting twice is resetting once |
| UIElements.ResetChildrenIdempotent | src/gui/elements/uielement.rs:171-179 | the same for a list of children |
| UIElements.ResetThenLookup | src/gui/elements/uielement.rs:171-179 | after a reset, looking a property up finds the same one with its initial value restored |
| UIElements.ResetThenLookupChildren | src/gui/elements/uielement.rs:171-179 | the same over a list of children |
| UIElements.Clicked | src/gui/elements/uielement.rs:325-350 | a category flips `collapsed` and requests no edit. A property requests editing of (reference, value string) unless that reference is already edited, which makes no `set_editing` call, so the edit in progress continues. Text and stat do nothing |
| UIElements.ClickTwiceRestoresCategory | src/gui/elements/uielement.rs:327-330 | two clicks leave the element as it was |
| UIElements.ClickWhileEditingKeepsEdit | src/gui/elements/uielement.rs:331-345 | clicking a property again once its edit has started makes no `set_editing` call; the edit in progress continues and nothing else changes |
| UIBoxes.MaxOfIsMaximum | src/gui/elements/uibox.rs:68-89 | the running maximum bounds every element's contribution and is one of them, or 0 for none |
| UIBoxes.MaxOfConcat | src/gui/elements/uibox.rs:59-121 | the maximum over two lists is the larger of the two maxima |
| UIBoxes.SumOfConcat | src/gui/elements/uibox.rs:59-121 | the sum over two lists is the sum of the two sums |
| UIBoxes.ValidateAll | src/gui/elements/uibox.rs:52-57 | ok exactly when every element validates; otherwise the first element's error |
| UIBoxes.UIBox.Default | src/gui/elements/uibox.rs:29-42 | at the panel's left edge, dark background, no borders, visible, not collapsed, z-index 1, the settings' margin, no elements, the given reference, no edit bar |
| UIBoxes.UIBox.AddElements | src/gui/elements/uibox.rs:44-46 | the new elements follow the existing ones in order |
| UIBoxes.UIBox.ValidateProperties | src/gui/elements/uibox.rs:52-57 | the box's elements validated in order to the first error |
| UIBoxes.UIBox.Height | src/gui/elements/uibox.rs:59-121 | the inline sum plus the largest top reach plus the largest bottom reach, over the elements and then the edit bar's two buttons and message |
| UIBoxes.MeasureAll | src/gui/elements/uibox.rs:63-119 | one pass over a list carries the three accumulators from their folds over the earlier elements to those over both parts |
| UIBoxes.Measure | src/gui/elements/uibox.rs:65-89 | a hidden element adds nothing. Relative y > 0 offers y + h + margin as a top and y < 0 offers −y + margin as a bottom. Inline adds h + margin |
| UIBoxes.HeightCoversEveryElement | src/gui/elements/uibox.rs:59-121 | the height is at least the sum of any one measured element's inline extent, top reach and bottom reach |
| UIBoxes.HiddenElementAddsNoHeight | src/gui/elements/uibox.rs:65-67 | appending a hidden element leaves the height unchanged |
| UIs.UI.Default | src/gui/elements/ui.rs:83-99 | box index 0, no boxes, no active box, no edit, mouse at (0,0), no keys, no hitboxes, dirty |
| UIs.UI.SetMousePosition | src/gui/elements/ui.rs:125-127 | only the mouse position changes |
| UIs.UI.RefreshFormats | src/gui/elements/ui.rs:133-139 | the UI is marked dirty |
| UIs.UI.SetEditing | src/gui/elements/ui.rs:145-148 | the edit state changes and the UI is marked dirty |
| UIs.UI.GetBox | src/gui/elements/ui.rs:150-154 | the box stored under the reference; a missing one panics |
| UIs.UI.AddBox | src/gui/elements/ui.rs:186-194 | a box without a reference gets the next box index in decimal and the index advances; otherwise the index is unchanged. The box is stored under the returned reference, replacing any previous one, and is otherwise unchanged |
| UIs.UI.ActiveBox | src/gui/elements/ui.rs:196-206 | none exactly when the active reference is empty; otherwise the box under it |
| UIs.UI.SetActiveBox | src/gui/elements/ui.rs:220-223 | the active reference changes and the UI is marked dirty |
| UIs.UI.SetDirty | src/gui/elements/ui.rs:350-352 | the UI is marked dirty |
| UIs.UI.Draw | src/gui/elements/ui.rs:347 | the dirty flag is cleared |
| UIs.Show | src/gui/elements/uibox.rs:123-125 | the box becomes the active one and the UI is marked dirty |
| UIs.UI.InputPressed | src/gui/elements/ui.rs:225-227 | the key is appended to the pressed keys |
| UIs.UI.InputReleasedAsWritten | src/gui/elements/ui.rs:229-235 | the loop as written completes exactly when the list model says it does, leaving that list |
| UIs.ReleaseAsWrittenCases | src/gui/elements/ui.rs:229-235 | it panics exactly when the key occurs before the last entry; otherwise a matching last entry is dropped and an absent key leaves the list as it is |
| UIs.ReleaseAsWrittenPanics | src/gui/elements/ui.rs:229-235 | releasing k from [k, x] with x ≠ k panics |
| UIs.ReleaseAsWrittenAgrees | src/gui/elements/ui.rs:229-235 | wherever the code as written completes, it removes the key exactly as the intended version does |
| UIs.UI.InputReleased | src/gui/elements/ui.rs:229-235 | the intended release removes every occurrence of the key and keeps the rest in order |
| UIs.RemoveAllSpec | src/gui/elements/ui.rs:229-235 | after removal the key is gone, every other key keeps its count, and a list without the key is unchanged |
| UIs.UI.ValidateProperties | src/gui/elements/ui.rs:241-258 | with an edit bar, its message becomes the box's first validation error, or none when all pass; without one nothing changes; the box is otherwise untouched |
| UIs.UiClicked | src/gui/elements/ui.rs:355-389 | the hitbox list is emptied. The click goes to the first enabled hitbox that strictly contains it on both axes and is an edit-bar button or an element that can be taken; the result says whether there was one |
| UIs.EdgeClickMisses | src/gui/elements/ui.rs:358-362 | a click on a hitbox's left or right edge is not inside it |
| TextFormats.DefaultStyle | src/gui/textformat.rs:137-155 | the font size from the settings; left/right padding padding_x and top/bottom padding_y; white on grey (89,89,89); visible, enabled, not filling; no border; size and dimensions 0 |
| TextFormats.StyleBuilder.PaddingLeft | src/gui/textformat.rs:51-54 | only padding_left changes |
| TextFormats.StyleBuilder.PaddingRight | src/gui/textformat.rs:55-58 | only padding_right changes |
| TextFormats.StyleBuilder.PaddingTop | src/gui/textformat.rs:59-62 | only padding_top changes |
| TextFormats.StyleBuilder.PaddingBot | src/gui/textformat.rs:63-66 | only padding_bot changes |
| TextFormats.StyleBuilder.FillWidth | src/gui/textformat.rs:67-70 | only fill_width changes |
| TextFormats.StyleBuilder.Padding | src/gui/textformat.rs:71-76 | all four paddings become p and nothing else changes |
| TextFormats.StyleBuilder.Visible | src/gui/textformat.rs:77-80 | only visible changes |
| TextFormats.StyleBuilder.Disabled | src/gui/textformat.rs:81-84 | only disabled changes |
| TextFormats.StyleBuilder.BorderRadius | src/gui/textformat.rs:85-88 | only the border radius changes |
| TextFormats.StyleBuilder.Width | src/gui/textformat.rs:89-92 | only the width changes |
| TextFormats.StyleBuilder.Height | src/gui/textformat.rs:93-96 | only the height changes |
| TextFormats.StyleBuilder.BgColor | src/gui/textformat.rs:97-100 | only the background option changes |
| TextFormats.StyleBuilder.FontColor | src/gui/textformat.rs:101-104 | only the font colour changes |
| TextFormats.DefaultBuilder | src/gui/textformat.rs:39-44 | building it at once gives the default style, and it keeps the settings |
| TextFormats.FromButton | src/gui/textformat.rs:45-50 | the default style with background (200,200,200,255), black text and radius 3 |
| TextFormats.RowStyle | src/gui/textformat.rs:157-163 | the default style with no padding, filling the width and no background |
| TextFormats.FieldStyle | src/gui/textformat.rs:165-167 | the default style filling the width |
| TextFormats.EditingStyle | src/gui/textformat.rs:169-174 | the default style with black text on white |
| TextFormats.CategoryStyle | src/gui/textformat.rs:176-182 | the default style filling the width, background (40,40,40,255) and text (200,200,200,255) |
| TextFormats.ButtonStyle | src/gui/textformat.rs:184-186 | the button builder's style |
| TextFormats.ApplyButtonStyle | src/gui/textformat.rs:188-192 | the button style on green (70,125,70,255) |
| TextFormats.CancelButtonStyle | src/gui/textformat.rs:194-198 | the button style on red (125,70,70,255) |
| TextFormats.ButtonsDifferOnlyInBackground | src/gui/textformat.rs:184-198 | apply and cancel equal the plain button except for the background, and differ from each other |
| TextFormats.Spaces | src/gui/textformat.rs:207 | n characters, all spaces |
| TextFormats.Spacer | src/gui/textformat.rs:200-208 | text, spacer, value and five more characters fill exactly size.x/10 characters, and the spacer is all spaces; the usize underflow when they do not fit is a precondition |
| TextFormats.Style.GetSpacer | src/gui/textformat.rs:200-208 | the spacer for the style's width |
| TextFormats.AxisColor | src/gui/textformat.rs:237-244 | " X:"/" R:" reddish, " Y:"/" G:" greenish, " Z:"/" B:" bluish, and white exactly for every other label |
| TextFormats.Style.GetAxisColor | src/gui/textformat.rs:237-244 | the label's tint, whatever the style |
| Guis.GetLinePosition | src/gui/mod.rs:6-11 | the line ends at the screen's right edge and lies 26·i down |
| Guis.LinesAreEvenlySpaced | src/gui/mod.rs:6-11 | consecutive lines are 26 apart and share their left edge |
| Guis.HitboxContains | src/gui/mod.rs:46-57 | true exactly when both truncated coordinates lie between the truncated corners, bounds included; a hitbox whose right corner truncates left of its left corner contains nothing |
| Guis.HitboxContainsRegion | src/gui/mod.rs:46-57 | for whole corners and a non-negative position within u32, the inclusive test after truncation holds exactly when the position is past the top-left corner and less than one pixel beyond the bottom-right corner |
| Guis.NegativeClickSaturates | src/gui/mod.rs:46-50 | a click left of the screen saturates to column 0 and lands in every hitbox that holds column 0 |
| Guis.TextFormat.GetSpacer | src/gui/mod.rs:92-100 | the spacer for the format's width, as the style computes it |
| Guis.TextFormat.GetAxisColor | src/gui/mod.rs:123-130 | the label's tint, as the style computes it |
| Guis.DefaultTextFormat | src/gui/mod.rs:66-75 | no size, font size 24, white on (50,50,50,255) |
| Guis.NewTextFormat | src/gui/mod.rs:83-90 | the getters return the arguments |
| Guis.TextFormatAgreesWithStyle | src/gui/mod.rs:92-130 | the legacy format pads and tints exactly as a style of the same width |
| Guis.DefaultTextFormatHasNoRoom | src/gui/mod.rs:66-100 | the default format is zero characters wide, so its spacer always underflows |
| Guis.Gui.New | src/gui/mod.rs:146-157 | no keys, values or hitboxes; apply at (1250,540)-(1350,580) and cancel at (1440,540)-(1550,580); both indices 0; not updating |
| Guis.Gui.SetElementIndex | src/gui/mod.rs:168-170 | only the element index changes |
| Guis.Gui.SetUpdating | src/gui/mod.rs:171-173 | only the updating flag changes |
| Guis.Gui.SetUpdatingIndex | src/gui/mod.rs:174-176 | only the updating index changes |
| Guis.Gui.SetUpdates | src/gui/mod.rs:177-180 | only values[i] and hitboxes[i] change; an index past either vector panics |
| Guis.GuiClicked | src/gui/mod.rs:28-44 | a panel in its initial state takes no click |
| Guis.GuiClickedRegion | src/gui/mod.rs:28-44 | otherwise a non-negative click within u32 is on the panel exactly when 1000 ≤ x < 1601 and y < 601, the inclusive bounds after truncation |

## Left out

- Drawing is not modelled. This covers `UIElement::draw`, the pixel work of `UI::draw`, box backgrounds, `hide_gui`, `parse_and_draw_text`, `draw_element_text` and `display_scene`. It is image and font work.
- `UI::process` (src/gui/elements/ui.rs:260-327): it calls `elem.process` and reads element fields (`style`, `hitbox`) that src/gui/elements/uielement.rs does not declare.
- Threads and channels are not modelled: `UIContext` with its frame/redraw channels, and the render threads. Scene locks are plain access.
- The scene loading and error output in src/lib.rs are not modelled; only the constants' values are used.
- Button wiring is not modelled: the texture widgets, `Rectangle::get_ui`, and the Button arm of `clicked`, which runs an opaque closure. `UIElements.Clicked` therefore requires a non-button element.
- `submit_properties` and the `fn_submit` field of a property are not modelled; they call closures into the scene. The two closures of the settings fields are modelled as `RenderSettings.Scene` methods.
- `refresh_format` (src/gui/elements/uielement.rs:117-124) is not modelled. `UIBox::refresh_formats` is not part of this model, so `UIs.UI.RefreshFormats` only sets the dirty flag.
- `UIElement::set_format` and the `Style::set_*` setters are not modelled. They overwrite one field with no other logic, and `Style` is a value here.
- The closures of stat elements are not modelled; a stat element only carries its kind.
- `UISettings::default` is not part of this model; the settings are a parameter.
- `Color::apply_gamma` is not modelled: it is a square root on each channel.
- `Light::get_diffuse` is not modelled.
- IEEE rounding, NaN and infinities are not modelled; all floats are reals.
- The float branch of `get_value_from_string` relies on `f64` parsing, which is a parameter.
- The `meval` evaluator and the Newton solver are parameters; their convergence is not modelled.
- The rectangle unit test (src/model/shapes/rectangle.rs:240-245) is not modelled. It needs concrete plane and triangle code, which is not part of this model.
- `Plane` in src/model/shapes/plane.rs is not part of this model; its methods are unimplemented.
- `Any::intersect` sorts its list, which never has more than one entry; the sort is not modelled, since it has no effect.
- Diffuses.Texture: a file-backed texture is kept as an opaque name; reading a texture is not modelled.
- UIBoxes.UIBox.Height: the `u32` sums and the `i32` negation of a bottom offset are not modelled as overflowing; heights are unbounded.
- UIElements.ComputeHeight: the `u32` sum is unbounded.
- UIs.UiClicked: what the dispatched click then does is not modelled: the apply/cancel of the edit bar, `take_element`/`give_back_element`, and the element's `clicked`. Which hitbox is dispatched is modelled, with `take_element`'s success as a parameter. Clicks are `nat` rather than `u32`, so `pos + size` never overflows.
- TextFormats.Spacer: lengths are counted in characters where Rust counts bytes; the two agree on ASCII labels.
- RenderSettings.ViewMode: the parallel light carried by `Simple` is not modelled.
- Panics are modelled as preconditions, which exclude them rather than model them. They are: `f64::clamp` with min > max (`Colors.Color.Clamp`); `intersections[0]` on an empty plane hit list (`Rectangles.Rectangle.Intersect`); the `u32` underflow in `UIBox::default` (`UIBoxes.UIBox.Default`); and the `expect` on a missing box (`UIs.UI.GetBox`, `UIs.UI.ActiveBox`, `UIs.UI.ValidateProperties`).
- The `println!` diagnostics of src/gui/elements/ui.rs:171, :323 and :383 are not modelled; they are console output.
- Guis.GuiClicked: its contract states only the initial-state case; `Guis.GuiClickedRegion` states the rest for positions within `u32`.

## Findings

| source | as written | input that shows it | evidently intended | confidence | as-written member | corrected member |
|---|---|---|---|---|---|---|
| src/render/mod.rs:46-58 | `closest` starts as `None` and is only replaced inside `if let Some(..) = &closest`, so it is never set | any scene with an element the ray hits: the result is still `None`, and `cast_ray` gives black | the first hit is taken, and a later one replaces it only when strictly closer | not executed | Render.AsWrittenNeverHits | Render.ClosestIsFirstMinimum |
| src/gui/elements/ui.rs:229-235 | the loop runs over the original length and removes entries as it goes, then indexes past the shrunken vector | pressed keys [k, x] with x ≠ k, release k: index 1 is out of range and `unwrap` panics | every occurrence of the released key is removed and the rest kept in order | not executed | UIs.ReleaseAsWrittenPanics | UIs.RemoveAllSpec |
