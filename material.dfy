/** Surface materials: the default material and the four factories, each a
    fixed scaling of one base colour. */
module Materials {
  import opened Glm

  datatype MaterialType = PLASTIC | METAL | RUBBER | WOOD

  datatype Material = Material(ambient: Vec3, diffuse: Vec3, specular: Vec3, shininess: real)

  /** Material(): the default material. */
  function DefaultMaterial(): (m: Material)
    ensures m.ambient == Splat(0.2) && m.diffuse == Splat(0.8) && m.specular == Splat(0.5)
    ensures m.shininess == 32.0
  {
    Material(Splat(0.2), Splat(0.8), Splat(0.5), 32.0)
  }

  /** The default colour argument of each factory. */
  function DefaultColor(t: MaterialType): Vec3 {
    match t
    case PLASTIC => Vec3(1.0, 0.0, 0.0)
    case METAL => Splat(0.7)
    case RUBBER => Vec3(0.0, 0.0, 1.0)
    case WOOD => Vec3(0.6, 0.3, 0.1)
  }

  /** Material::createPlastic: white highlights whatever the colour. */
  function CreatePlastic(c: Vec3): (m: Material)
    ensures m.ambient == Scale(c, 0.1) && m.diffuse == Scale(c, 0.7)
    ensures m.specular == Splat(0.9) && m.shininess == 64.0
  {
    Material(Scale(c, 0.1), Scale(c, 0.7), Splat(0.9), 64.0)
  }

  /** Material::createMetal: highlights tinted by the colour itself. */
  function CreateMetal(c: Vec3): (m: Material)
    ensures m.ambient == Scale(c, 0.05) && m.diffuse == Scale(c, 0.3)
    ensures m.specular == Scale(c, 1.2) && m.shininess == 128.0
  {
    Material(Scale(c, 0.05), Scale(c, 0.3), Scale(c, 1.2), 128.0)
  }

  /** Material::createRubber. */
  function CreateRubber(c: Vec3): (m: Material)
    ensures m.ambient == Scale(c, 0.3) && m.diffuse == Scale(c, 0.8)
    ensures m.specular == Splat(0.1) && m.shininess == 8.0
  {
    Material(Scale(c, 0.3), Scale(c, 0.8), Splat(0.1), 8.0)
  }

  /** Material::createWood. */
  function CreateWood(c: Vec3): (m: Material)
    ensures m.ambient == Scale(c, 0.2) && m.diffuse == Scale(c, 0.9)
    ensures m.specular == Splat(0.05) && m.shininess == 4.0
  {
    Material(Scale(c, 0.2), Scale(c, 0.9), Splat(0.05), 4.0)
  }

  /** The factory for a material type. */
  function Create(t: MaterialType, c: Vec3): Material {
    match t
    case PLASTIC => CreatePlastic(c)
    case METAL => CreateMetal(c)
    case RUBBER => CreateRubber(c)
    case WOOD => CreateWood(c)
  }

  /** The presets Material::Plastic(), Metal(), Rubber() and Wood() that objects
      are given. They are not declared by the material header; the model reads
      each as the factory of that type at its default colour, with the products
      written out (see PresetIsFactoryDefault). */
  function Preset(t: MaterialType): Material {
    match t
    case PLASTIC => Material(Vec3(0.1, 0.0, 0.0), Vec3(0.7, 0.0, 0.0), Splat(0.9), 64.0)
    case METAL => Material(Splat(0.035), Splat(0.21), Splat(0.84), 128.0)
    case RUBBER => Material(Vec3(0.0, 0.0, 0.3), Vec3(0.0, 0.0, 0.8), Splat(0.1), 8.0)
    case WOOD => Material(Vec3(0.12, 0.06, 0.02), Vec3(0.54, 0.27, 0.09), Splat(0.05), 4.0)
  }

  lemma PresetIsFactoryDefault(t: MaterialType)
    ensures Preset(t) == Create(t, DefaultColor(t))
  {
    match t
    case PLASTIC =>
    case METAL =>
    case RUBBER =>
    case WOOD =>
  }

  /** Every factory gives a positive shininess, and the types are ordered from
      smoothest to roughest: metal, plastic, rubber, wood. */
  lemma ShininessOrdered(c: Vec3)
    ensures forall t :: Create(t, c).shininess > 0.0
    ensures Create(METAL, c).shininess > Create(PLASTIC, c).shininess > Create(RUBBER, c).shininess
            > Create(WOOD, c).shininess
  {
    forall t ensures Create(t, c).shininess > 0.0 {
      match t
      case PLASTIC =>
      case METAL =>
      case RUBBER =>
      case WOOD =>
    }
  }

  /** For a non-negative colour, every factory's ambient term is dimmer than its
      diffuse term, and a metal's highlight is brighter than its diffuse term. */
  lemma AmbientBelowDiffuse(t: MaterialType, c: Vec3)
    requires NonNegative(c)
    ensures LessEq(Create(t, c).ambient, Create(t, c).diffuse)
    ensures t == METAL ==> LessEq(Create(t, c).diffuse, Create(t, c).specular)
  {
  }

  /** The ambient and diffuse terms depend linearly on the colour; only metal's
      specular term does too, the others are fixed greys. */
  lemma FactoriesScaleWithColor(t: MaterialType, c: Vec3, k: real)
    ensures Create(t, Scale(c, k)).ambient == Scale(Create(t, c).ambient, k)
    ensures Create(t, Scale(c, k)).diffuse == Scale(Create(t, c).diffuse, k)
    ensures t == METAL ==> Create(t, Scale(c, k)).specular == Scale(Create(t, c).specular, k)
    ensures t != METAL ==> Create(t, Scale(c, k)).specular == Create(t, c).specular
  {
  }
}
