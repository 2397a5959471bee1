/**
 * The `Material` record of the renderer and its `make*` transitions.
 * Fields the C++ constructor leaves uninitialised are `None` here, so the
 * model never invents a value for them.
 */
module Materials {
  import opened Wrappers
  import opened Vectors

  /** The `materialType` codes. */
  datatype Kind = Diffuse | Specular | Light | Checker | Glass | Textured | GlassHighlight

  /** The integer constant the shader sees for each kind. */
  function KindCode(k: Kind): (code: int)
    ensures 0 <= code <= 6
  {
    match k
    case Diffuse => 0
    case Specular => 1
    case Light => 2
    case Checker => 3
    case Glass => 4
    case Textured => 5
    case GlassHighlight => 6
  }

  /** Distinct kinds get distinct codes, so the code alone identifies the kind. */
  lemma KindCodeInjective(k1: Kind, k2: Kind)
    requires KindCode(k1) == KindCode(k2)
    ensures k1 == k2
  {
  }

  datatype Material = Material(
    color: Vec4,
    specularColor: Option<Vec4>,
    emissionColor: Option<Vec4>,
    textureIndex: int,
    emissionStrength: Option<real>,
    smoothness: Option<real>,
    specularProbability: Option<real>,
    checkerScale: Option<real>,
    refractiveIndex: Option<real>,
    kind: Kind,
    index: Option<int>,
    isEdgeHighlight: int)

  /**
   * `Material()`: white diffuse, no texture (`-1`), not an edge highlight;
   * every other field, `index` included, is left uninitialised.
   */
  function Fresh(): (m: Material)
    ensures m.kind == Diffuse && m.color == Vec4(1.0, 1.0, 1.0, 0.0)
    ensures m.textureIndex == -1 && m.isEdgeHighlight == 0
    ensures m.index.None? && m.emissionColor.None? && m.emissionStrength.None?
  {
    Material(Vec4(1.0, 1.0, 1.0, 0.0), None, None, -1, None, None, None, None, None, Diffuse, None, 0)
  }

  /** A fresh material whose `index` has been assigned. */
  function Numbered(i: int): (m: Material)
    ensures m.index == Some(i) && m.kind == Diffuse
  {
    Fresh().(index := Some(i))
  }

  /**
   * Every field the material's type is shaded with holds a value: the
   * specular tint, smoothness and probability of a specular material, the
   * emission of a light, the scale of a checker, the refractive index of a
   * glass, and a texture slot (not the `-1` of "no texture") of a textured
   * material. Diffuse materials and glass highlights need only the colour,
   * which is always set.
   */
  predicate Initialised(m: Material) {
    match m.kind
    case Diffuse => true
    case Specular => m.specularColor.Some? && m.smoothness.Some? && m.specularProbability.Some?
    case Light => m.emissionColor.Some? && m.emissionStrength.Some?
    case Checker => m.checkerScale.Some?
    case Glass => m.refractiveIndex.Some?
    case Textured => m.textureIndex >= 0
    case GlassHighlight => true
  }

  function MakeDiffusive(m: Material, col: Vec3): Material {
    m.(kind := Diffuse, color := Extend(col, 0.0))
  }

  /** `addSpecular`: the specular tint is always white. */
  function AddSpecular(m: Material, smooth: real, specProb: real): Material {
    m.(kind := Specular, specularColor := Some(Vec4(1.0, 1.0, 1.0, 0.0)),
       smoothness := Some(smooth), specularProbability := Some(specProb))
  }

  function MakeSpecular(m: Material, col: Vec3, specularCol: Vec3, smooth: real, specProb: real): Material {
    m.(kind := Specular, color := Extend(col, 0.0), specularColor := Some(Extend(specularCol, 0.0)),
       smoothness := Some(smooth), specularProbability := Some(specProb))
  }

  function MakeLight(m: Material, emissionCol: Vec3, strength: real): Material {
    m.(kind := Light, emissionColor := Some(Extend(emissionCol, 0.0)), emissionStrength := Some(strength))
  }

  function MakeChecker(m: Material, scale: real): Material {
    m.(kind := Checker, checkerScale := Some(scale))
  }

  function MakeGlass(m: Material, col: Vec3, refIndex: real): Material {
    m.(kind := Glass, color := Extend(col, 0.0), refractiveIndex := Some(refIndex))
  }

  function MakeGlassHighlight(m: Material, col: Vec3): Material {
    m.(kind := GlassHighlight, color := Extend(col, 0.0))
  }

  /** `makeTextured`: the colour argument is accepted and ignored. */
  function MakeTextured(m: Material, texIndex: int, col: Vec3): Material {
    m.(kind := Textured, textureIndex := texIndex)
  }

  /**
   * Every transition leaves a material whose type is the one it is named
   * after and whose fields for that type all hold values, whatever the
   * material was before (`makeTextured` given a real slot). The fresh
   * material is initialised too, so no sequence of transitions exposes an
   * uninitialised field to the shading of the material's type.
   */
  lemma TransitionsInitialise(m: Material, col: Vec3, spec: Vec3, x: real, y: real, i: int)
    ensures Initialised(Fresh())
    ensures var d := MakeDiffusive(m, col); d.kind == Diffuse && Initialised(d)
    ensures var s := AddSpecular(m, x, y); s.kind == Specular && Initialised(s)
    ensures var s := MakeSpecular(m, col, spec, x, y); s.kind == Specular && Initialised(s)
    ensures var l := MakeLight(m, col, x); l.kind == Light && Initialised(l)
    ensures var c := MakeChecker(m, x); c.kind == Checker && Initialised(c)
    ensures var g := MakeGlass(m, col, x); g.kind == Glass && Initialised(g)
    ensures var h := MakeGlassHighlight(m, col); h.kind == GlassHighlight && Initialised(h)
    ensures var t := MakeTextured(m, i, col); t.kind == Textured && (Initialised(t) <==> i >= 0)
  {
  }
}
