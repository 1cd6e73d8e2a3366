/** The metal material (src/model/materials/metal.rs). */
module Metals {
  import opened Primitives
  import opened Surfaces
  import opened Colors

  /** A metal: one colour, a metalness and a roughness, the same at every hit. */
  datatype Metal = Metal(color: Color, metalness: real, roughness: real) {

    /** The stored colour, whatever the hit. */
    function ColorAt(hit: Hit): (c: Color)
      ensures c == color
    {
      New(color.r, color.g, color.b)
    }

    /** Metals are flat: the normal variation is always +z. */
    function NormAt(hit: Hit): (n: Vec3)
      ensures n == Vec3(0.0, 0.0, 1.0)
    {
      Vec3(0.0, 0.0, 1.0)
    }

    function ReflectionCoef(): (k: real)
      ensures k == metalness
    {
      metalness
    }

    function RefractionCoef(): (k: real)
      ensures k == 0.0
    {
      0.0
    }

    /** The squared stored roughness, never negative. */
    function Roughness(): (k: real)
      ensures k >= 0.0
      ensures k == roughness * roughness
    {
      roughness * roughness
    }

    function NeedsProjection(): (b: bool)
      ensures !b
    {
      false
    }
  }

  /** `Metal::new`. */
  function NewMetal(color: Color, metalness: real, roughness: real): (m: Metal)
    ensures m.color == color && m.metalness == metalness && m.roughness == roughness
  {
    Metal(color, metalness, roughness)
  }

  /** Two hits on the same metal always see the same colour and normal. */
  lemma UniformOverHits(m: Metal, h1: Hit, h2: Hit)
    ensures m.ColorAt(h1) == m.ColorAt(h2) && m.NormAt(h1) == m.NormAt(h2)
  {
  }
}

/** The material constructors on `dyn Material` (src/model/materials/mod.rs). */
module Materials {
  import opened Colors
  import opened Metals

  /** `<dyn Material>::new(color)`: a metal of that colour, neither metallic nor rough. */
  function NewMaterial(color: Color): (m: Metal)
    ensures m.color == color && m.ReflectionCoef() == 0.0 && m.Roughness() == 0.0
  {
    NewMetal(color, 0.0, 0.0)
  }

  /** `<dyn Material>::default()`: the black metal. */
  function DefaultMaterial(): (m: Metal)
    ensures m == NewMaterial(Black)
    ensures m.color == Color(0.0, 0.0, 0.0) && m.metalness == 0.0 && m.roughness == 0.0
  {
    NewMetal(Color(0.0, 0.0, 0.0), 0.0, 0.0)
  }
}
