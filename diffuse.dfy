/** The diffuse material (src/model/materials/diffuse.rs). */
module Diffuses {
  import opened Primitives

  /** How a texture value is read: as a number, a colour or a vector. */
  datatype TextureType = Float | Color | Vector

  /**
   * A texture.  Only the constant form `Texture::Value` appears in the
   * material code; the file-backed form is kept as an opaque name.
   */
  datatype Texture = Value(v: Vec3, kind: TextureType) | File(name: string)

  /** All nine fields at once, in declaration order. */
  datatype DiffuseFields = DiffuseFields(
    color: Texture, metalness: Texture, roughness: Texture, transparency: Texture,
    normVariation: Texture, emissive: Texture, opacity: Texture, displacement: Texture,
    refraction: real)

  class Diffuse {
    var color: Texture
    var metalness: Texture
    var roughness: Texture
    var transparency: Texture
    var normVariation: Texture
    var emissive: Texture
    var opacity: Texture
    var displacement: Texture
    var refraction: real

    function Fields(): DiffuseFields reads this {
      DiffuseFields(color, metalness, roughness, transparency, normVariation, emissive, opacity, displacement, refraction)
    }

    /**
     * `Diffuse::new`.  The arguments come in the order color, metalness,
     * roughness, emissive, transparency, norm_variation, opacity,
     * displacement, refraction, and each lands in its namesake field.
     */
    constructor (color: Texture, metalness: Texture, roughness: Texture, emissive: Texture,
                 transparency: Texture, normVariation: Texture, opacity: Texture,
                 displacement: Texture, refraction: real)
      ensures Fields() == DiffuseFields(color, metalness, roughness, transparency,
                                        normVariation, emissive, opacity, displacement, refraction)
    {
      this.color := color;
      this.metalness := metalness;
      this.roughness := roughness;
      this.emissive := emissive;
      this.transparency := transparency;
      this.normVariation := normVariation;
      this.opacity := opacity;
      this.displacement := displacement;
      this.refraction := refraction;
    }

    function GetColor(): Texture reads this { color }

    method SetColor(v: Texture)
      modifies this
      ensures GetColor() == v
      ensures Fields() == old(Fields()).(color := v)
    {
      color := v;
    }

    function GetNorm(): Texture reads this { normVariation }

    method SetNorm(v: Texture)
      modifies this
      ensures GetNorm() == v
      ensures Fields() == old(Fields()).(normVariation := v)
    {
      normVariation := v;
    }

    function GetMetalness(): Texture reads this { metalness }

    method SetMetalness(v: Texture)
      modifies this
      ensures GetMetalness() == v
      ensures Fields() == old(Fields()).(metalness := v)
    {
      metalness := v;
    }

    function GetRefraction(): real reads this { refraction }

    method SetRefraction(v: real)
      modifies this
      ensures GetRefraction() == v
      ensures Fields() == old(Fields()).(refraction := v)
    {
      refraction := v;
    }

    function GetTransparency(): Texture reads this { transparency }

    method SetTransparency(v: Texture)
      modifies this
      ensures GetTransparency() == v
      ensures Fields() == old(Fields()).(transparency := v)
    {
      transparency := v;
    }

    function GetRoughness(): Texture reads this { roughness }

    method SetRoughness(v: Texture)
      modifies this
      ensures GetRoughness() == v
      ensures Fields() == old(Fields()).(roughness := v)
    {
      roughness := v;
    }

    function GetEmissive(): Texture reads this { emissive }

    method SetEmissive(v: Texture)
      modifies this
      ensures GetEmissive() == v
      ensures Fields() == old(Fields()).(emissive := v)
    {
      emissive := v;
    }

    function GetOpacity(): Texture reads this { opacity }

    method SetOpacity(v: Texture)
      modifies this
      ensures GetOpacity() == v
      ensures Fields() == old(Fields()).(opacity := v)
    {
      opacity := v;
    }

    function GetDisplacement(): Texture reads this { displacement }

    method SetDisplacement(v: Texture)
      modifies this
      ensures GetDisplacement() == v
      ensures Fields() == old(Fields()).(displacement := v)
    {
      displacement := v;
    }

  }

  /** `Diffuse::default`. */
  method Default() returns (d: Diffuse)
    ensures d.Fields() == DiffuseFields(
      Value(FromValue(1.0), Color), Value(FromValue(0.0), Float), Value(FromValue(0.5), Float),
      Value(FromValue(1.0), Float), Value(FromValue(1.0), Float), Value(FromValue(0.0), Float),
      Value(Vec3(0.5, 0.5, 1.0), Vector), Value(FromValue(1.0), Float), 0.0)
  {
    d := new Diffuse(
      Value(FromValue(1.0), Color),
      Value(FromValue(0.0), Float),
      Value(FromValue(0.5), Float),
      Value(FromValue(0.0), Float),
      Value(FromValue(1.0), Float),
      Value(FromValue(1.0), Float),
      Value(Vec3(0.5, 0.5, 1.0), Vector),
      Value(FromValue(1.0), Float),
      0.0);
  }
}
