/**
 * The part of Unity's `Material` and `Shader` that `GLTFMaterial.cs` uses.
 *
 * A material is a shader, a name (which may be null), a property sheet, a set
 * of enabled shader keywords, override tags and a render queue. Property ids
 * (`Shader.PropertyToID("_SrcBlend")`) and property-name strings
 * (`"_BumpMap"`) name the same properties and are modelled by one
 * enumeration; keywords likewise.
 */
module UnityMaterial {
  import opened Wrappers
  import opened Colors
  import opened Textures

  /** The shader properties the importer writes; `MainColor` is `_Color` (`material.color`), `MainTex` is `_MainTex` (`material.mainTexture`). */
  datatype Prop =
    | MainColor | MainTex
    | SrcBlend | DstBlend | ZWrite | Mode
    | EmissiveColor | EmissionColor | EmissionMap
    | ChannelMap | Smoothness | Metallic | Roughness | MetallicGlossMap
    | NormalMap | NormalMapScale | BumpMap | BumpScale | OcclusionMap
    | CullMode | AlphaCutoff
    | BaseMap | BaseColor
    | SpecColor | GlossyReflections | SpecGlossMap

  /** The shader keywords the importer enables or disables (names without the leading underscore). */
  datatype Keyword =
    | DIRECTIONAL_LIGHT | SPECULAR_HIGHLIGHTS
    | ALPHATEST_ON | ALPHABLEND_ON | ALPHAPREMULTIPLY_ON
    | EMISSION | CHANNEL_MAP | NORMAL_MAP | NORMALMAP
    | METALLICGLOSSMAP | SPECGLOSSMAP

  datatype Value = IntVal(i: int) | FloatVal(f: real) | ColorVal(c: Color) | TexVal(t: Option<Image>)

  /** `UnityEngine.Rendering.BlendMode` values used by the alpha table. */
  const BlendZero := 0
  const BlendOne := 1
  const BlendOneMinusSrcAlpha := 10

  /** `UnityEngine.Rendering.CullMode.Off`. */
  const CullOff := 0

  /** The render queue of a new material: -1, "use the shader's queue". */
  const ShaderQueue := -1

  /** A shader found by name, with the properties it declares (what `HasProperty` consults). */
  datatype Shader = Shader(name: string, properties: set<Prop>)

  /** The observable state of a `Material`. */
  datatype MaterialState = MaterialState(
    shader: Shader,
    name: Option<string>,
    props: map<Prop, Value>,
    keywords: set<Keyword>,
    tags: map<string, string>,
    renderQueue: int)
  {
    predicate HasProperty(p: Prop) {
      p in shader.properties
    }

    /** The value stored for `p`, if any. */
    function Get(p: Prop): Option<Value> {
      if p in props then Some(props[p]) else None
    }

    /** `material.mainTexture`: the texture in `_MainTex`, or null. */
    function MainTexture(): Option<Image> {
      if MainTex in props && props[MainTex].TexVal? then props[MainTex].t else None
    }

    function Set(p: Prop, v: Value): MaterialState {
      this.(props := props[p := v])
    }

    function Enable(k: Keyword): MaterialState {
      this.(keywords := keywords + {k})
    }

    function Disable(k: Keyword): MaterialState {
      this.(keywords := keywords - {k})
    }

    function WithTag(tag: string, value: string): MaterialState {
      this.(tags := tags[tag := value])
    }

    function WithQueue(queue: int): MaterialState {
      this.(renderQueue := queue)
    }

    function WithName(n: Option<string>): MaterialState {
      this.(name := n)
    }
  }

  /** The state of `new Material(shader)`. */
  function NewMaterial(shader: Shader): MaterialState {
    MaterialState(shader, Some(""), map[], {}, map[], ShaderQueue)
  }

  class Material {
    var shader: Shader
    var name: Option<string>
    var props: map<Prop, Value>
    var keywords: set<Keyword>
    var tags: map<string, string>
    var renderQueue: int

    function State(): MaterialState
      reads this
    {
      MaterialState(shader, name, props, keywords, tags, renderQueue)
    }

    /** `new Material(shader)`. */
    constructor (s: Shader)
      ensures State() == NewMaterial(s)
    {
      shader, name, props, keywords, tags, renderQueue := s, Some(""), map[], {}, map[], ShaderQueue;
    }

    /** `new Material(source)`: a copy of another material's shader, name, properties and keywords. */
    constructor Copy(source: MaterialState)
      ensures State() == source
    {
      shader, name, props := source.shader, source.name, source.props;
      keywords, tags, renderQueue := source.keywords, source.tags, source.renderQueue;
    }

    predicate HasProperty(p: Prop)
      reads this
    {
      p in shader.properties
    }

    /** `SetInt`, `SetFloat`, `SetColor`, `SetTexture`, and the `color`/`mainTexture` setters. */
    method SetProperty(p: Prop, v: Value)
      modifies this
      ensures State() == old(State()).Set(p, v)
    {
      props := props[p := v];
    }

    method EnableKeyword(k: Keyword)
      modifies this
      ensures State() == old(State()).Enable(k)
    {
      keywords := keywords + {k};
    }

    method DisableKeyword(k: Keyword)
      modifies this
      ensures State() == old(State()).Disable(k)
    {
      keywords := keywords - {k};
    }

    method SetOverrideTag(tag: string, value: string)
      modifies this
      ensures State() == old(State()).WithTag(tag, value)
    {
      tags := tags[tag := value];
    }

    method SetRenderQueue(queue: int)
      modifies this
      ensures State() == old(State()).WithQueue(queue)
    {
      renderQueue := queue;
    }

    method SetName(n: Option<string>)
      modifies this
      ensures State() == old(State()).WithName(n)
    {
      name := n;
    }
  }
}
