/** Scene elements (src/model/mod.rs). */
module Elements {
  import opened Wrappers
  import opened Primitives

  /** A scene element: a shape, a material, its id and the composed shape it belongs to, if any. */
  class Element<Sh, M> {
    var id: U32
    var material: M
    var shape: Sh
    var composedId: Option<U32>

    /** `Element::new`: id 0 and no composed shape. */
    constructor (shape: Sh, material: M)
      ensures this.shape == shape && this.material == material
      ensures id == 0 && composedId == None
    {
      this.shape := shape;
      this.material := material;
      id := 0;
      composedId := None;
    }

    function Material(): M reads this { material }
    function Shape(): Sh reads this { shape }
    function Id(): U32 reads this { id }
    function ComposedId(): Option<U32> reads this { composedId }

    method SetMaterial(material: M)
      modifies this
      ensures this.material == material
      ensures shape == old(shape) && id == old(id) && composedId == old(composedId)
    {
      this.material := material;
    }

    method SetShape(shape: Sh)
      modifies this
      ensures this.shape == shape
      ensures material == old(material) && id == old(id) && composedId == old(composedId)
    {
      this.shape := shape;
    }

    method SetId(id: U32)
      modifies this
      ensures Id() == id
      ensures shape == old(shape) && material == old(material) && composedId == old(composedId)
    {
      this.id := id;
    }

    /** Records membership of a composed shape. */
    method SetComposedId(id: U32)
      modifies this
      ensures ComposedId() == Some(id)
      ensures shape == old(shape) && material == old(material) && this.id == old(this.id)
    {
      composedId := Some(id);
    }
  }

  /**
   * The composed-shape operations a composed element delegates to, which
   * are not part of this model: its material and its `update`.
   */
  datatype ComposedOps<!CS, M> = ComposedOps(material: CS -> M, update: CS -> CS)

  /** An element made of several shapes, with its own id. */
  class ComposedElement<CS> {
    var composedShape: CS
    var id: U32

    /** `ComposedElement::new`: id 0. */
    constructor (composedShape: CS)
      ensures this.composedShape == composedShape && id == 0
    {
      this.composedShape := composedShape;
      id := 0;
    }

    function ComposedShape(): CS reads this { composedShape }

    /** The material is the composed shape's. */
    function Material<M>(ops: ComposedOps<CS, M>): (m: M)
      reads this
      ensures m == ops.material(composedShape)
    {
      ops.material(ComposedShape())
    }

    method SetId(id: U32)
      modifies this
      ensures Id() == id && composedShape == old(composedShape)
    {
      this.id := id;
    }

    function Id(): U32 reads this { id }

    /** `update` hands the shape to its own update and keeps the id. */
    method Update<M>(ops: ComposedOps<CS, M>)
      modifies this
      ensures composedShape == ops.update(old(composedShape)) && id == old(id)
    {
      composedShape := ops.update(composedShape);
    }
  }

  /** A freshly built element reports id 0 and no composed id; after `set_id` and `set_composed_id` it reports those values and still holds its shape and material. */
  method ElementLifecycle<Sh, M>(shape: Sh, material: M, id: U32, cid: U32) returns (e: Element<Sh, M>)
    ensures e.Shape() == shape && e.Material() == material
    ensures e.Id() == id && e.ComposedId() == Some(cid)
  {
    e := new Element(shape, material);
    assert e.Id() == 0 && e.ComposedId() == None;
    e.SetId(id);
    e.SetComposedId(cid);
  }

  /** A composed element's id starts at 0 and then reads back what was set. */
  method ComposedLifecycle<CS>(shape: CS, id: U32) returns (e: ComposedElement<CS>)
    ensures e.ComposedShape() == shape && e.Id() == id
  {
    e := new ComposedElement(shape);
    assert e.Id() == 0;
    e.SetId(id);
  }
}
