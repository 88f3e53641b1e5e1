/**
 * The glTF material description (`GLTFMaterial`, `PbrMetalRoughness`,
 * `PbrSpecularGlossiness`) as the JSON reader leaves it, and the shader
 * configuration the importer is given.
 */
module Descriptor {
  import opened Wrappers
  import opened Colors
  import opened Textures
  import opened UnityMaterial

  datatype AlphaMode = OPAQUE | MASK | BLEND

  /** `pbrMetallicRoughness`; its field initialisers are the glTF defaults (`DefaultMetalRoughness`). */
  datatype PbrMetalRoughness = PbrMetalRoughness(
    baseColorFactor: Color,
    baseColorTexture: Option<TextureInfo>,
    metallicFactor: real,
    roughnessFactor: real,
    metallicRoughnessTexture: Option<TextureInfo>)

  const DefaultMetalRoughness := PbrMetalRoughness(White, None, 1.0, 1.0, None)

  /** `extensions.KHR_materials_pbrSpecularGlossiness`. */
  datatype PbrSpecularGlossiness = PbrSpecularGlossiness(
    diffuseFactor: Color,
    diffuseTexture: Option<TextureInfo>,
    specularFactor: Color,
    glossinessFactor: real,
    specularGlossinessTexture: Option<TextureInfo>)

  /**
   * A glTF material. `specularGlossiness` is None both when `extensions` is
   * null and when it carries no specular-glossiness block. Both parameter
   * blocks may be present at once; the legacy path then uses the
   * metallic-roughness one.
   */
  datatype GltfMaterial = GltfMaterial(
    name: Option<string>,
    pbrMetallicRoughness: Option<PbrMetalRoughness>,
    normalTexture: Option<TextureInfo>,
    occlusionTexture: Option<TextureInfo>,
    emissiveTexture: Option<TextureInfo>,
    emissiveFactor: Color,
    alphaMode: AlphaMode,
    alphaCutoff: real,
    doubleSided: bool,
    specularGlossiness: Option<PbrSpecularGlossiness>)

  /**
   * A material whose JSON gives only `name`: the field initialisers of
   * `GLTFMaterial` (black emission, OPAQUE, cutoff 0.5, double-sided).
   */
  function Unspecified(name: Option<string>): GltfMaterial {
    GltfMaterial(name, None, None, None, None, Black, OPAQUE, 0.5, true, None)
  }

  /** `ShaderSettings`: an optional material to copy on the MRTK path, and the four legacy shaders. */
  datatype ShaderSettings = ShaderSettings(
    overrideMaterial: Option<MaterialState>,
    metallic: Shader,
    metallicBlend: Shader,
    specular: Shader,
    specularBlend: Shader)

  /** What `Shader.Find` returns for "Graphics Tools/Standard" (possibly null) and for "Standard". */
  datatype Runtime = Runtime(graphicsToolsStandard: Option<Shader>, standard: Shader)
}
