/**
 * The legacy branch of `GLTFMaterial.CreateMaterial`, taken when the shader
 * "Graphics Tools/Standard" is missing: a metallic-roughness material
 * (`PbrMetalRoughness.CreateMaterial`), else a specular-glossiness one
 * (`PbrSpecularGlossiness.CreateMaterial`), else a plain "Standard" material,
 * followed by the normal, occlusion, emission and alpha-cutoff steps common
 * to all three, and the glTF name.
 *
 * As on the MRTK branch, each `...Material` function is the state the code
 * leaves, each `Create...` method is the code, proved to leave that state,
 * and the lemmas state the branch's rules about that state.
 */
module LegacyPath {
  import opened Wrappers
  import opened Colors
  import opened Textures
  import opened UnityMaterial
  import opened Descriptor

  // ---- Texture slots of the two parameter blocks ----

  /** Where a texture reference of a parameter block points: nowhere, past the end (a warning), or an entry. */
  datatype Slot = Absent | PastEnd | At(index: nat)

  /**
   * The guard of the metallic-roughness slots (lines 386-389, 402-405): a null
   * reference or a negative index is no texture, an index past the end logs
   * a warning, anything else names an entry.
   */
  function GuardedSlot(textures: seq<TextureSource>, info: Option<TextureInfo>): (r: Slot)
    ensures r.At? <==> Resolves(Some(textures), info)
    ensures r.At? ==> r.index == info.value.index
    ensures r.PastEnd? <==> TryGetTexture(Some(textures), info, false).warned
  {
    if !HasIndex(info) then Absent
    else if |textures| <= info.value.index then PastEnd
    else At(info.value.index)
  }

  /**
   * The guard of the specular-glossiness slots as written (lines 454-457,
   * 470-473): no `index >= 0` test, so a negative index reaches
   * `textures[index]` and throws.
   */
  function SpecGlossSlotAsWritten(textures: seq<TextureSource>, info: Option<TextureInfo>): Result<Slot, Fault> {
    if info.None? then Success(Absent)
    else if |textures| <= info.value.index then Success(PastEnd)
    else if info.value.index < 0 then Failure(IndexOutOfRange)
    else Success(At(info.value.index))
  }

  /**
   * The specular-glossiness guard as written agrees with the guarded slot
   * wherever it does not throw, and throws exactly on a negative index.
   */
  lemma SpecGlossSlotAgreesExceptNegative(textures: seq<TextureSource>, info: Option<TextureInfo>)
    ensures SpecGlossSlotAsWritten(textures, info).Success? ==> SpecGlossSlotAsWritten(textures, info).value == GuardedSlot(textures, info)
    ensures SpecGlossSlotAsWritten(textures, info).Failure? <==> info.Some? && info.value.index < 0
  {
  }

  /** A diffuse texture with index -1: the code as written throws; the guarded slot is no texture. */
  lemma SpecGlossNegativeIndexThrows(source: TextureSource)
    ensures SpecGlossSlotAsWritten([source], Some(TextureInfo(-1, 0, 1.0))) == Failure(IndexOutOfRange)
    ensures GuardedSlot([source], Some(TextureInfo(-1, 0, 1.0))) == Absent
  {
  }

  /** The texture a guarded slot hands to the callback, read in the given colour space. */
  function SlotTexture(textures: seq<TextureSource>, info: Option<TextureInfo>, linear: bool): Option<Image> {
    match GuardedSlot(textures, info)
    case At(i) => textures[i].GetTextureCached(linear)
    case _ => None
  }

  /** A guarded slot delivers what the guarded `TryGetTexture` would. */
  lemma SlotTextureIsLookup(textures: seq<TextureSource>, info: Option<TextureInfo>, linear: bool)
    ensures SlotTexture(textures, info, linear) == TryGetTexture(Some(textures), info, linear).texture
  {
  }

  // ---- PbrMetalRoughness.CreateMaterial, lines 371-424 ----

  /** Lines 373-375: the blend variant exactly for BLEND. */
  function MetalRoughShader(mode: AlphaMode, settings: ShaderSettings): Shader {
    if mode == BLEND then settings.metallicBlend else settings.metallic
  }

  /** Lines 378-381: the new material and its three factors. */
  function MetalRoughFactors(pbr: PbrMetalRoughness, mode: AlphaMode, settings: ShaderSettings): MaterialState {
    NewMaterial(MetalRoughShader(mode, settings))
      .Set(MainColor, ColorVal(pbr.baseColorFactor))
      .Set(Metallic, FloatVal(pbr.metallicFactor))
      .Set(Roughness, FloatVal(pbr.roughnessFactor))
  }

  /** Lines 384-418: the base-colour texture (sRGB) and the metallic-roughness texture (linear) when there are texture results. */
  function MetalRoughTextures(s: MaterialState, pbr: PbrMetalRoughness, textures: Option<seq<TextureSource>>): MaterialState {
    if textures.None? then s
    else
      var base := SlotTexture(textures.value, pbr.baseColorTexture, false);
      var s1 := if base.Some? then s.Set(MainTex, TexVal(base)) else s;
      var mr := if GuardedSlot(textures.value, pbr.metallicRoughnessTexture).At?
                then TryGetTexture(textures, pbr.metallicRoughnessTexture, true).texture else None;
      if mr.Some? then s1.Set(MetallicGlossMap, TexVal(mr)).Enable(METALLICGLOSSMAP) else s1
  }

  /** Lines 421-422: the main texture and base colour copied to `_BaseMap` and `_BaseColor` for shaders that have them. */
  function BaseMapStep(s: MaterialState, pbr: PbrMetalRoughness): MaterialState {
    var s1 := if s.HasProperty(BaseMap) then s.Set(BaseMap, TexVal(s.MainTexture())) else s;
    if s1.HasProperty(BaseColor) then s1.Set(BaseColor, ColorVal(pbr.baseColorFactor)) else s1
  }

  /** The material `PbrMetalRoughness.CreateMaterial` hands to its callback. */
  function MetalRoughMaterial(pbr: PbrMetalRoughness, mode: AlphaMode, settings: ShaderSettings, textures: Option<seq<TextureSource>>): MaterialState {
    BaseMapStep(MetalRoughTextures(MetalRoughFactors(pbr, mode, settings), pbr, textures), pbr)
  }

  /** Lines 384-418. */
  method ApplyMetalRoughTextures(mat: Material, pbr: PbrMetalRoughness, textures: Option<seq<TextureSource>>)
    modifies mat
    ensures mat.State() == MetalRoughTextures(old(mat.State()), pbr, textures)
  {
    if textures.Some? {
      var results := textures.value;
      if pbr.baseColorTexture.Some? && pbr.baseColorTexture.value.index >= 0 {
        var index := pbr.baseColorTexture.value.index;
        if index < |results| {
          var tex := results[index].GetTextureCached(false);
          if tex.Some? {
            mat.SetProperty(MainTex, TexVal(tex));
          }
        }
      }
      if pbr.metallicRoughnessTexture.Some? && pbr.metallicRoughnessTexture.value.index >= 0 {
        if pbr.metallicRoughnessTexture.value.index < |results| {
          var tex := TryGetTexture(textures, pbr.metallicRoughnessTexture, true).texture;
          if tex.Some? {
            mat.SetProperty(MetallicGlossMap, TexVal(tex));
            mat.EnableKeyword(METALLICGLOSSMAP);
          }
        }
      }
    }
  }

  /** Lines 421-422. */
  method ApplyBaseMap(mat: Material, pbr: PbrMetalRoughness)
    modifies mat
    ensures mat.State() == BaseMapStep(old(mat.State()), pbr)
  {
    if mat.HasProperty(BaseMap) {
      mat.SetProperty(BaseMap, TexVal(mat.State().MainTexture()));
    }
    if mat.HasProperty(BaseColor) {
      mat.SetProperty(BaseColor, ColorVal(pbr.baseColorFactor));
    }
  }

  /** `PbrMetalRoughness.CreateMaterial`, lines 371-424. */
  method CreateMetalRough(pbr: PbrMetalRoughness, textures: Option<seq<TextureSource>>, mode: AlphaMode, settings: ShaderSettings)
    returns (mat: Material)
    ensures fresh(mat)
    ensures mat.State() == MetalRoughMaterial(pbr, mode, settings, textures)
  {
    var sh: Shader;
    if mode == BLEND {
      sh := settings.metallicBlend;
    } else {
      sh := settings.metallic;
    }
    mat := new Material(sh);
    mat.SetProperty(MainColor, ColorVal(pbr.baseColorFactor));
    mat.SetProperty(Metallic, FloatVal(pbr.metallicFactor));
    mat.SetProperty(Roughness, FloatVal(pbr.roughnessFactor));
    ApplyMetalRoughTextures(mat, pbr, textures);
    ApplyBaseMap(mat, pbr);
  }

  /** What a metallic-roughness material may hold. */
  const MetalRoughProps: set<Prop> := {MainColor, Metallic, Roughness, MainTex, MetallicGlossMap, BaseMap, BaseColor}

  /**
   * The metallic-roughness material: the blend shader exactly for BLEND; the
   * three factors; the main texture and the metallic-gloss map (with
   * `_METALLICGLOSSMAP`) exactly when their references resolve and the
   * texture is delivered; `_BaseMap` and `_BaseColor` mirror the main texture
   * and base colour on shaders that have them; nothing else.
   */
  lemma MetalRoughRule(pbr: PbrMetalRoughness, mode: AlphaMode, settings: ShaderSettings, textures: Option<seq<TextureSource>>)
    ensures var m := MetalRoughMaterial(pbr, mode, settings, textures);
            var base := TryGetTexture(textures, pbr.baseColorTexture, false).texture;
            var mr := TryGetTexture(textures, pbr.metallicRoughnessTexture, true).texture;
            && m.shader == (if mode == BLEND then settings.metallicBlend else settings.metallic)
            && m.name == Some("") && m.tags == map[] && m.renderQueue == ShaderQueue
            && m.Get(MainColor) == Some(ColorVal(pbr.baseColorFactor))
            && m.Get(Metallic) == Some(FloatVal(pbr.metallicFactor))
            && m.Get(Roughness) == Some(FloatVal(pbr.roughnessFactor))
            && m.Get(MainTex) == (if base.Some? then Some(TexVal(base)) else None)
            && m.Get(MetallicGlossMap) == (if mr.Some? then Some(TexVal(mr)) else None)
            && m.keywords == (if mr.Some? then {METALLICGLOSSMAP} else {})
            && m.Get(BaseMap) == (if m.HasProperty(BaseMap) then Some(TexVal(base)) else None)
            && m.Get(BaseColor) == (if m.HasProperty(BaseColor) then Some(ColorVal(pbr.baseColorFactor)) else None)
            && m.props.Keys <= MetalRoughProps
  {
    var s0 := MetalRoughFactors(pbr, mode, settings);
    MetalRoughTexturesEffect(s0, pbr, textures);
    BaseMapEffect(MetalRoughTextures(s0, pbr, textures), pbr);
  }

  /** The texture step on the factors-only material: what it binds, and that it adds nothing else. */
  lemma MetalRoughTexturesEffect(s0: MaterialState, pbr: PbrMetalRoughness, textures: Option<seq<TextureSource>>)
    requires s0.keywords == {} && s0.props.Keys == {MainColor, Metallic, Roughness}
    ensures var s := MetalRoughTextures(s0, pbr, textures);
            var base := TryGetTexture(textures, pbr.baseColorTexture, false).texture;
            var mr := TryGetTexture(textures, pbr.metallicRoughnessTexture, true).texture;
            && s.shader == s0.shader && s.name == s0.name && s.tags == s0.tags && s.renderQueue == s0.renderQueue
            && (forall p :: p in {MainColor, Metallic, Roughness} ==> s.Get(p) == s0.Get(p))
            && s.MainTexture() == base
            && s.Get(MainTex) == (if base.Some? then Some(TexVal(base)) else None)
            && s.Get(MetallicGlossMap) == (if mr.Some? then Some(TexVal(mr)) else None)
            && s.keywords == (if mr.Some? then {METALLICGLOSSMAP} else {})
            && s.props.Keys <= {MainColor, Metallic, Roughness, MainTex, MetallicGlossMap}
  {
    if textures.Some? {
      SlotTextureIsLookup(textures.value, pbr.baseColorTexture, false);
    }
  }

  /** The `_BaseMap`/`_BaseColor` step changes only those two properties. */
  lemma BaseMapEffect(s: MaterialState, pbr: PbrMetalRoughness)
    ensures var t := BaseMapStep(s, pbr);
            && t.shader == s.shader && t.name == s.name && t.tags == s.tags && t.renderQueue == s.renderQueue
            && t.keywords == s.keywords
            && (forall p :: p !in {BaseMap, BaseColor} ==> t.Get(p) == s.Get(p))
            && t.props.Keys <= s.props.Keys + {BaseMap, BaseColor}
            && t.Get(BaseMap) == (if s.HasProperty(BaseMap) then Some(TexVal(s.MainTexture())) else s.Get(BaseMap))
            && t.Get(BaseColor) == (if s.HasProperty(BaseColor) then Some(ColorVal(pbr.baseColorFactor)) else s.Get(BaseColor))
  {
  }

  // ---- PbrSpecularGlossiness.CreateMaterial, lines 439-489 ----

  /** Lines 441-443: the blend variant exactly for BLEND. */
  function SpecGlossShader(mode: AlphaMode, settings: ShaderSettings): Shader {
    if mode == BLEND then settings.specularBlend else settings.specular
  }

  /** Lines 446-449: the new material and its three factors. */
  function SpecGlossFactors(sg: PbrSpecularGlossiness, mode: AlphaMode, settings: ShaderSettings): MaterialState {
    NewMaterial(SpecGlossShader(mode, settings))
      .Set(MainColor, ColorVal(sg.diffuseFactor))
      .Set(SpecColor, ColorVal(sg.specularFactor))
      .Set(GlossyReflections, FloatVal(sg.glossinessFactor))
  }

  /**
   * Lines 452-487 with the index guard of the metallic-roughness slots: the
   * diffuse texture; then, for a specular-glossiness reference that names an
   * entry, `_SPECGLOSSMAP` on before the fetch, and the texture (sRGB) if one
   * is delivered.
   */
  function SpecGlossTextures(s: MaterialState, sg: PbrSpecularGlossiness, textures: Option<seq<TextureSource>>): MaterialState {
    if textures.None? then s
    else
      var diffuse := SlotTexture(textures.value, sg.diffuseTexture, false);
      var s1 := if diffuse.Some? then s.Set(MainTex, TexVal(diffuse)) else s;
      if !GuardedSlot(textures.value, sg.specularGlossinessTexture).At? then s1
      else
        var s2 := s1.Enable(SPECGLOSSMAP);
        var tex := SlotTexture(textures.value, sg.specularGlossinessTexture, false);
        if tex.Some? then s2.Set(SpecGlossMap, TexVal(tex)).Enable(SPECGLOSSMAP) else s2
  }

  /** The material `PbrSpecularGlossiness.CreateMaterial` hands to its callback. */
  function SpecGlossMaterial(sg: PbrSpecularGlossiness, mode: AlphaMode, settings: ShaderSettings, textures: Option<seq<TextureSource>>): MaterialState {
    SpecGlossTextures(SpecGlossFactors(sg, mode, settings), sg, textures)
  }

  method CreateSpecGloss(sg: PbrSpecularGlossiness, textures: Option<seq<TextureSource>>, mode: AlphaMode, settings: ShaderSettings)
    returns (mat: Material)
    ensures fresh(mat)
    ensures mat.State() == SpecGlossMaterial(sg, mode, settings, textures)
  {
    var sh: Shader;
    if mode == BLEND {
      sh := settings.specularBlend;
    } else {
      sh := settings.specular;
    }
    mat := new Material(sh);
    mat.SetProperty(MainColor, ColorVal(sg.diffuseFactor));
    mat.SetProperty(SpecColor, ColorVal(sg.specularFactor));
    mat.SetProperty(GlossyReflections, FloatVal(sg.glossinessFactor));
    if textures.Some? {
      var results := textures.value;
      var diffuseSlot := GuardedSlot(results, sg.diffuseTexture);
      if diffuseSlot.At? {
        var tex := results[diffuseSlot.index].GetTextureCached(false);
        if tex.Some? {
          mat.SetProperty(MainTex, TexVal(tex));
        }
      }
      var specularSlot := GuardedSlot(results, sg.specularGlossinessTexture);
      if specularSlot.At? {
        mat.EnableKeyword(SPECGLOSSMAP);
        var tex := results[specularSlot.index].GetTextureCached(false);
        if tex.Some? {
          mat.SetProperty(SpecGlossMap, TexVal(tex));
          mat.EnableKeyword(SPECGLOSSMAP);
        }
      }
    }
  }

  /** What a specular-glossiness material may hold. */
  const SpecGlossProps: set<Prop> := {MainColor, SpecColor, GlossyReflections, MainTex, SpecGlossMap}

  /**
   * The specular-glossiness material: the blend shader exactly for BLEND;
   * the three factors; the diffuse texture as main texture when delivered;
   * `_SPECGLOSSMAP` on whenever the specular-glossiness reference names an
   * entry, even when that entry delivers no texture; nothing else.
   */
  lemma SpecGlossRule(sg: PbrSpecularGlossiness, mode: AlphaMode, settings: ShaderSettings, textures: Option<seq<TextureSource>>)
    ensures var m := SpecGlossMaterial(sg, mode, settings, textures);
            var diffuse := TryGetTexture(textures, sg.diffuseTexture, false).texture;
            var specular := TryGetTexture(textures, sg.specularGlossinessTexture, false).texture;
            && m.shader == (if mode == BLEND then settings.specularBlend else settings.specular)
            && m.name == Some("") && m.tags == map[] && m.renderQueue == ShaderQueue
            && m.Get(MainColor) == Some(ColorVal(sg.diffuseFactor))
            && m.Get(SpecColor) == Some(ColorVal(sg.specularFactor))
            && m.Get(GlossyReflections) == Some(FloatVal(sg.glossinessFactor))
            && m.Get(MainTex) == (if diffuse.Some? then Some(TexVal(diffuse)) else None)
            && m.Get(SpecGlossMap) == (if specular.Some? then Some(TexVal(specular)) else None)
            && m.keywords == (if Resolves(textures, sg.specularGlossinessTexture) then {SPECGLOSSMAP} else {})
            && m.props.Keys <= SpecGlossProps
  {
    if textures.Some? {
      SlotTextureIsLookup(textures.value, sg.diffuseTexture, false);
      SlotTextureIsLookup(textures.value, sg.specularGlossinessTexture, false);
    }
  }

  // ---- The legacy branch, lines 232-338 ----

  /** Lines 234-258: metallic-roughness first, then specular-glossiness, then "Standard". */
  function LegacyBase(d: GltfMaterial, textures: Option<seq<TextureSource>>, settings: ShaderSettings, standard: Shader): MaterialState {
    if d.pbrMetallicRoughness.Some? then MetalRoughMaterial(d.pbrMetallicRoughness.value, d.alphaMode, settings, textures)
    else if d.specularGlossiness.Some? then SpecGlossMaterial(d.specularGlossiness.value, d.alphaMode, settings, textures)
    else NewMaterial(standard)
  }

  /** Lines 262-281: the bump map, `_NORMALMAP` and the bump scale when a normal texture is delivered. */
  function LegacyNormalStep(s: MaterialState, d: GltfMaterial, textures: Option<seq<TextureSource>>): MaterialState {
    if d.normalTexture.None? then s
    else
      var tex := TryGetTexture(textures, d.normalTexture, true).texture;
      if tex.Some? then s.Set(BumpMap, TexVal(tex)).Enable(NORMALMAP).Set(BumpScale, FloatVal(d.normalTexture.value.scale)) else s
  }

  /** Lines 284-301: the occlusion map when an occlusion texture is delivered. */
  function LegacyOcclusionStep(s: MaterialState, d: GltfMaterial, textures: Option<seq<TextureSource>>): MaterialState {
    if d.occlusionTexture.None? then s
    else
      var tex := TryGetTexture(textures, d.occlusionTexture, true).texture;
      if tex.Some? then s.Set(OcclusionMap, TexVal(tex)) else s
  }

  /** Lines 304-308: the emission colour and `_EMISSION` for a non-black emissive factor. */
  function EmissiveFactorStep(s: MaterialState, d: GltfMaterial): MaterialState {
    if d.emissiveFactor != Black then s.Set(EmissionColor, ColorVal(d.emissiveFactor)).Enable(EMISSION) else s
  }

  /** Lines 311-329: the emission map (sRGB) and `_EMISSION` when an emissive texture is delivered. */
  function EmissiveTextureStep(s: MaterialState, d: GltfMaterial, textures: Option<seq<TextureSource>>): MaterialState {
    if d.emissiveTexture.None? then s
    else
      var tex := TryGetTexture(textures, d.emissiveTexture, false).texture;
      if tex.Some? then s.Set(EmissionMap, TexVal(tex)).Enable(EMISSION) else s
  }

  /** Lines 331-334: the alpha cutoff, for MASK only. */
  function AlphaCutoffStep(s: MaterialState, d: GltfMaterial): MaterialState {
    if d.alphaMode == MASK then s.Set(AlphaCutoff, FloatVal(d.alphaCutoff)) else s
  }

  /** Common step `k`, 1 to 4: normal map, occlusion map, emission, alpha cutoff. */
  function LegacyStepAt(s: MaterialState, k: nat, d: GltfMaterial, textures: Option<seq<TextureSource>>): MaterialState
    requires 1 <= k <= 4
  {
    match k
    case 1 => LegacyNormalStep(s, d, textures)
    case 2 => LegacyOcclusionStep(s, d, textures)
    case 3 => EmissiveTextureStep(EmissiveFactorStep(s, d), d, textures)
    case _ => AlphaCutoffStep(s, d)
  }

  /** The state after the first `k` common steps (0 is the base material). */
  function LegacyStage(d: GltfMaterial, textures: Option<seq<TextureSource>>, settings: ShaderSettings, standard: Shader, k: nat): MaterialState
    requires k <= 4
  {
    if k == 0 then LegacyBase(d, textures, settings, standard)
    else LegacyStepAt(LegacyStage(d, textures, settings, standard, k - 1), k, d, textures)
  }

  /** The material the legacy branch hands to `onFinish`: named with the glTF name as it is, null included (line 336). */
  function LegacyMaterial(d: GltfMaterial, textures: Option<seq<TextureSource>>, settings: ShaderSettings, standard: Shader): MaterialState {
    LegacyStage(d, textures, settings, standard, 4).WithName(d.name)
  }

  /** Lines 262-281. */
  method ApplyLegacyNormal(mat: Material, d: GltfMaterial, textures: Option<seq<TextureSource>>)
    modifies mat
    ensures mat.State() == LegacyNormalStep(old(mat.State()), d, textures)
  {
    if d.normalTexture.Some? {
      var tex := TryGetTexture(textures, d.normalTexture, true).texture;
      if tex.Some? {
        mat.SetProperty(BumpMap, TexVal(tex));
        mat.EnableKeyword(NORMALMAP);
        mat.SetProperty(BumpScale, FloatVal(d.normalTexture.value.scale));
      }
    }
  }

  /** Lines 284-301. */
  method ApplyLegacyOcclusion(mat: Material, d: GltfMaterial, textures: Option<seq<TextureSource>>)
    modifies mat
    ensures mat.State() == LegacyOcclusionStep(old(mat.State()), d, textures)
  {
    if d.occlusionTexture.Some? {
      var tex := TryGetTexture(textures, d.occlusionTexture, true).texture;
      if tex.Some? {
        mat.SetProperty(OcclusionMap, TexVal(tex));
      }
    }
  }

  /** Lines 304-329. */
  method ApplyLegacyEmission(mat: Material, d: GltfMaterial, textures: Option<seq<TextureSource>>)
    modifies mat
    ensures mat.State() == EmissiveTextureStep(EmissiveFactorStep(old(mat.State()), d), d, textures)
  {
    if d.emissiveFactor != Black {
      mat.SetProperty(EmissionColor, ColorVal(d.emissiveFactor));
      mat.EnableKeyword(EMISSION);
    }
    if d.emissiveTexture.Some? {
      var tex := TryGetTexture(textures, d.emissiveTexture, false).texture;
      if tex.Some? {
        mat.SetProperty(EmissionMap, TexVal(tex));
        mat.EnableKeyword(EMISSION);
      }
    }
  }

  /** The legacy branch of `CreateMaterial`, lines 232-338. */
  method CreateLegacy(d: GltfMaterial, textures: Option<seq<TextureSource>>, settings: ShaderSettings, standard: Shader)
    returns (mat: Material)
    ensures fresh(mat)
    ensures mat.State() == LegacyMaterial(d, textures, settings, standard)
  {
    if d.pbrMetallicRoughness.Some? {
      mat := CreateMetalRough(d.pbrMetallicRoughness.value, textures, d.alphaMode, settings);
    } else if d.specularGlossiness.Some? {
      mat := CreateSpecGloss(d.specularGlossiness.value, textures, d.alphaMode, settings);
    } else {
      mat := new Material(standard);
    }
    assert mat.State() == LegacyStage(d, textures, settings, standard, 0);
    ApplyLegacyNormal(mat, d, textures);
    assert mat.State() == LegacyStage(d, textures, settings, standard, 1);
    ApplyLegacyOcclusion(mat, d, textures);
    assert mat.State() == LegacyStage(d, textures, settings, standard, 2);
    ApplyLegacyEmission(mat, d, textures);
    assert mat.State() == LegacyStage(d, textures, settings, standard, 3);
    if d.alphaMode == MASK {
      mat.SetProperty(AlphaCutoff, FloatVal(d.alphaCutoff));
    }
    assert mat.State() == LegacyStage(d, textures, settings, standard, 4);
    mat.SetName(d.name);
  }

  // ---- What each step touches ----

  /** The common step that writes property `p`; 0 for the properties only the base material sets. */
  function LegacyPropStep(p: Prop): nat {
    match p
    case BumpMap | BumpScale => 1
    case OcclusionMap => 2
    case EmissionColor | EmissionMap => 3
    case AlphaCutoff => 4
    case _ => 0
  }

  /** The common step that enables keyword `k`; 0 for the keywords only the base material enables. */
  function LegacyKeywordStep(k: Keyword): nat {
    match k
    case NORMALMAP => 1
    case EMISSION => 3
    case _ => 0
  }

  /** From `a` to `b`, at most common steps `lo + 1` to `hi` have acted; none of them changes shader, name, tags or queue. */
  predicate LegacySpans(a: MaterialState, b: MaterialState, lo: nat, hi: nat) {
    && a.shader == b.shader && a.name == b.name && a.tags == b.tags && a.renderQueue == b.renderQueue
    && (forall p :: !(lo < LegacyPropStep(p) <= hi) ==> a.Get(p) == b.Get(p))
    && (forall k :: !(lo < LegacyKeywordStep(k) <= hi) ==> (k in a.keywords <==> k in b.keywords))
  }

  lemma LegacySpansTrans(a: MaterialState, b: MaterialState, c: MaterialState, i: nat, j: nat, k: nat)
    requires i <= j <= k && LegacySpans(a, b, i, j) && LegacySpans(b, c, j, k)
    ensures LegacySpans(a, c, i, k)
  {
  }

  lemma LegacyNormalFootprint(s: MaterialState, d: GltfMaterial, textures: Option<seq<TextureSource>>)
    ensures LegacySpans(s, LegacyNormalStep(s, d, textures), 0, 1)
  {
  }

  lemma LegacyOcclusionFootprint(s: MaterialState, d: GltfMaterial, textures: Option<seq<TextureSource>>)
    ensures LegacySpans(s, LegacyOcclusionStep(s, d, textures), 1, 2)
  {
  }

  lemma LegacyEmissionFootprint(s: MaterialState, d: GltfMaterial, textures: Option<seq<TextureSource>>)
    ensures LegacySpans(s, EmissiveTextureStep(EmissiveFactorStep(s, d), d, textures), 2, 3)
  {
    var f := EmissiveFactorStep(s, d);
    assert LegacySpans(s, f, 2, 3);
    assert LegacySpans(f, EmissiveTextureStep(f, d, textures), 2, 3);
  }

  lemma AlphaCutoffFootprint(s: MaterialState, d: GltfMaterial)
    ensures LegacySpans(s, AlphaCutoffStep(s, d), 3, 4)
  {
  }

  /** Common step `k` touches only what is numbered `k`. */
  lemma LegacyStepSpans(s: MaterialState, k: nat, d: GltfMaterial, textures: Option<seq<TextureSource>>)
    requires 1 <= k <= 4
    ensures LegacySpans(s, LegacyStepAt(s, k, d, textures), k - 1, k)
  {
    match k
    case 1 => LegacyNormalFootprint(s, d, textures);
    case 2 => LegacyOcclusionFootprint(s, d, textures);
    case 3 => LegacyEmissionFootprint(s, d, textures);
    case _ => AlphaCutoffFootprint(s, d);
  }

  /** The common steps depend on the settings only through the base material. */
  lemma {:induction false} LegacyStagesFromBase(d: GltfMaterial, textures: Option<seq<TextureSource>>, settings1: ShaderSettings, settings2: ShaderSettings, standard: Shader, k: nat)
    requires k <= 4 && LegacyBase(d, textures, settings1, standard) == LegacyBase(d, textures, settings2, standard)
    ensures LegacyStage(d, textures, settings1, standard, k) == LegacyStage(d, textures, settings2, standard, k)
  {
    if k > 0 {
      LegacyStagesFromBase(d, textures, settings1, settings2, standard, k - 1);
    }
  }

  /** Between stages `i` and `j`, only common steps `i + 1` to `j` have acted. */
  lemma {:induction false} LegacyStageSpans(d: GltfMaterial, textures: Option<seq<TextureSource>>, settings: ShaderSettings, standard: Shader, i: nat, j: nat)
    requires i <= j <= 4
    ensures LegacySpans(LegacyStage(d, textures, settings, standard, i), LegacyStage(d, textures, settings, standard, j), i, j)
    decreases j
  {
    if i < j {
      var before := LegacyStage(d, textures, settings, standard, j - 1);
      LegacyStageSpans(d, textures, settings, standard, i, j - 1);
      LegacyStepSpans(before, j, d, textures);
      LegacySpansTrans(LegacyStage(d, textures, settings, standard, i), before, LegacyStage(d, textures, settings, standard, j), i, j - 1, j);
    }
  }

  /** A base material holds none of what the common steps set. */
  predicate BaseOnly(b: MaterialState) {
    && (forall p :: p in b.props ==> LegacyPropStep(p) == 0)
    && (forall k :: k in b.keywords ==> LegacyKeywordStep(k) == 0)
  }

  // ---- Rules of the branch ----

  /** The shader of the base material, by the order of precedence. */
  function LegacyShader(d: GltfMaterial, settings: ShaderSettings, standard: Shader): Shader {
    if d.pbrMetallicRoughness.Some? then MetalRoughShader(d.alphaMode, settings)
    else if d.specularGlossiness.Some? then SpecGlossShader(d.alphaMode, settings)
    else standard
  }

  /** The base material has its precedence's shader, no render state of its own, and only its workflow's properties and keywords. */
  lemma LegacyBaseShape(d: GltfMaterial, textures: Option<seq<TextureSource>>, settings: ShaderSettings, standard: Shader)
    ensures var b := LegacyBase(d, textures, settings, standard);
            && b.shader == LegacyShader(d, settings, standard)
            && b.tags == map[] && b.renderQueue == ShaderQueue
            && BaseOnly(b)
            && (d.pbrMetallicRoughness.Some? ==> b.props.Keys <= MetalRoughProps && b.keywords <= {METALLICGLOSSMAP})
            && (d.pbrMetallicRoughness.None? && d.specularGlossiness.Some? ==> b.props.Keys <= SpecGlossProps && b.keywords <= {SPECGLOSSMAP})
            && (d.pbrMetallicRoughness.None? && d.specularGlossiness.None? ==> b == NewMaterial(standard))
  {
    var b := LegacyBase(d, textures, settings, standard);
    if d.pbrMetallicRoughness.Some? {
      MetalRoughRule(d.pbrMetallicRoughness.value, d.alphaMode, settings, textures);
      BaseOnlyWithin(b, MetalRoughProps, {METALLICGLOSSMAP});
    } else if d.specularGlossiness.Some? {
      SpecGlossRule(d.specularGlossiness.value, d.alphaMode, settings, textures);
      BaseOnlyWithin(b, SpecGlossProps, {SPECGLOSSMAP});
    }
  }

  /** A material holding only workflow properties and keywords holds none of what the common steps set. */
  lemma BaseOnlyWithin(b: MaterialState, ps: set<Prop>, ks: set<Keyword>)
    requires ps <= MetalRoughProps + SpecGlossProps && ks <= {METALLICGLOSSMAP, SPECGLOSSMAP}
    requires b.props.Keys <= ps && b.keywords <= ks
    ensures BaseOnly(b)
  {
    forall p | p in b.props
      ensures LegacyPropStep(p) == 0
    {
      assert p in MetalRoughProps + SpecGlossProps;
    }
  }

  /**
   * Shader precedence: metallic-roughness wins over specular-glossiness,
   * which wins over "Standard"; the blend variant is chosen exactly for
   * BLEND; the branch never sets tags or render queue.
   */
  lemma LegacyShaderPrecedence(d: GltfMaterial, textures: Option<seq<TextureSource>>, settings: ShaderSettings, standard: Shader)
    ensures var m := LegacyMaterial(d, textures, settings, standard);
            && m.shader == (if d.pbrMetallicRoughness.Some? then (if d.alphaMode == BLEND then settings.metallicBlend else settings.metallic)
                            else if d.specularGlossiness.Some? then (if d.alphaMode == BLEND then settings.specularBlend else settings.specular)
                            else standard)
            && m.tags == map[] && m.renderQueue == ShaderQueue
  {
    LegacyBaseShape(d, textures, settings, standard);
    LegacyStageSpans(d, textures, settings, standard, 0, 4);
  }

  /**
   * Emission: `_EMISSION` is on exactly when the emissive factor is not
   * black or an emissive texture is delivered; the emission colour and map
   * are set exactly in those respective cases.
   */
  lemma LegacyEmissionRule(d: GltfMaterial, textures: Option<seq<TextureSource>>, settings: ShaderSettings, standard: Shader)
    ensures var m := LegacyMaterial(d, textures, settings, standard);
            var tex := TryGetTexture(textures, d.emissiveTexture, false).texture;
            && (EMISSION in m.keywords <==> d.emissiveFactor != Black || tex.Some?)
            && m.Get(EmissionColor) == (if d.emissiveFactor != Black then Some(ColorVal(d.emissiveFactor)) else None)
            && m.Get(EmissionMap) == (if tex.Some? then Some(TexVal(tex)) else None)
  {
    LegacyBaseShape(d, textures, settings, standard);
    LegacyStageSpans(d, textures, settings, standard, 0, 2);
    LegacyStageSpans(d, textures, settings, standard, 3, 4);
    LegacyEmissionCore(LegacyStage(d, textures, settings, standard, 0), LegacyStage(d, textures, settings, standard, 2),
                       LegacyStage(d, textures, settings, standard, 4), d, textures);
  }

  lemma LegacyEmissionCore(b: MaterialState, s2: MaterialState, m: MaterialState, d: GltfMaterial, textures: Option<seq<TextureSource>>)
    requires BaseOnly(b) && LegacySpans(b, s2, 0, 2) && LegacySpans(LegacyStepAt(s2, 3, d, textures), m, 3, 4)
    ensures var tex := TryGetTexture(textures, d.emissiveTexture, false).texture;
            && (EMISSION in m.keywords <==> d.emissiveFactor != Black || tex.Some?)
            && m.Get(EmissionColor) == (if d.emissiveFactor != Black then Some(ColorVal(d.emissiveFactor)) else None)
            && m.Get(EmissionMap) == (if tex.Some? then Some(TexVal(tex)) else None)
  {
    var s3 := LegacyStepAt(s2, 3, d, textures);
    assert b.Get(EmissionColor) == s2.Get(EmissionColor) == None && b.Get(EmissionMap) == s2.Get(EmissionMap) == None;
    assert EMISSION !in b.keywords && EMISSION !in s2.keywords;
    assert m.Get(EmissionColor) == s3.Get(EmissionColor) && m.Get(EmissionMap) == s3.Get(EmissionMap);
    assert EMISSION in m.keywords <==> EMISSION in s3.keywords;
  }

  /** The normal map: bump map, bump scale and `_NORMALMAP` exactly when a normal texture is delivered. */
  lemma LegacyNormalRule(d: GltfMaterial, textures: Option<seq<TextureSource>>, settings: ShaderSettings, standard: Shader)
    ensures var m := LegacyMaterial(d, textures, settings, standard);
            var tex := TryGetTexture(textures, d.normalTexture, true).texture;
            && (NORMALMAP in m.keywords <==> tex.Some?)
            && m.Get(BumpMap) == (if tex.Some? then Some(TexVal(tex)) else None)
            && m.Get(BumpScale) == (if tex.Some? then Some(FloatVal(d.normalTexture.value.scale)) else None)
  {
    LegacyBaseShape(d, textures, settings, standard);
    LegacyStageSpans(d, textures, settings, standard, 1, 4);
    LegacyNormalCore(LegacyStage(d, textures, settings, standard, 0), LegacyStage(d, textures, settings, standard, 4), d, textures);
  }

  lemma LegacyNormalCore(b: MaterialState, m: MaterialState, d: GltfMaterial, textures: Option<seq<TextureSource>>)
    requires BaseOnly(b) && LegacySpans(LegacyStepAt(b, 1, d, textures), m, 1, 4)
    ensures var tex := TryGetTexture(textures, d.normalTexture, true).texture;
            && (NORMALMAP in m.keywords <==> tex.Some?)
            && m.Get(BumpMap) == (if tex.Some? then Some(TexVal(tex)) else None)
            && m.Get(BumpScale) == (if tex.Some? then Some(FloatVal(d.normalTexture.value.scale)) else None)
  {
    var s1 := LegacyStepAt(b, 1, d, textures);
    assert b.Get(BumpMap) == None && b.Get(BumpScale) == None && NORMALMAP !in b.keywords;
    assert m.Get(BumpMap) == s1.Get(BumpMap) && m.Get(BumpScale) == s1.Get(BumpScale);
    assert NORMALMAP in m.keywords <==> NORMALMAP in s1.keywords;
  }

  /** The occlusion map is set exactly when an occlusion texture is delivered. */
  lemma LegacyOcclusionRule(d: GltfMaterial, textures: Option<seq<TextureSource>>, settings: ShaderSettings, standard: Shader)
    ensures var m := LegacyMaterial(d, textures, settings, standard);
            var tex := TryGetTexture(textures, d.occlusionTexture, true).texture;
            m.Get(OcclusionMap) == (if tex.Some? then Some(TexVal(tex)) else None)
  {
    LegacyBaseShape(d, textures, settings, standard);
    LegacyStageSpans(d, textures, settings, standard, 0, 1);
    LegacyStageSpans(d, textures, settings, standard, 2, 4);
    LegacyOcclusionCore(LegacyStage(d, textures, settings, standard, 0), LegacyStage(d, textures, settings, standard, 1),
                        LegacyStage(d, textures, settings, standard, 4), d, textures);
  }

  lemma LegacyOcclusionCore(b: MaterialState, s1: MaterialState, m: MaterialState, d: GltfMaterial, textures: Option<seq<TextureSource>>)
    requires BaseOnly(b) && LegacySpans(b, s1, 0, 1) && LegacySpans(LegacyStepAt(s1, 2, d, textures), m, 2, 4)
    ensures var tex := TryGetTexture(textures, d.occlusionTexture, true).texture;
            m.Get(OcclusionMap) == (if tex.Some? then Some(TexVal(tex)) else None)
  {
    assert b.Get(OcclusionMap) == s1.Get(OcclusionMap) == None;
    assert m.Get(OcclusionMap) == LegacyStepAt(s1, 2, d, textures).Get(OcclusionMap);
  }

  /** The alpha cutoff is set for MASK and absent otherwise. */
  lemma LegacyAlphaCutoffRule(d: GltfMaterial, textures: Option<seq<TextureSource>>, settings: ShaderSettings, standard: Shader)
    ensures var m := LegacyMaterial(d, textures, settings, standard);
            m.Get(AlphaCutoff) == if d.alphaMode == MASK then Some(FloatVal(d.alphaCutoff)) else None
  {
    LegacyBaseShape(d, textures, settings, standard);
    LegacyStageSpans(d, textures, settings, standard, 0, 3);
    var b := LegacyStage(d, textures, settings, standard, 0);
    var s3 := LegacyStage(d, textures, settings, standard, 3);
    assert b.Get(AlphaCutoff) == s3.Get(AlphaCutoff) == None;
  }

  /** The material carries the glTF name verbatim: a null name stays null and an empty one stays empty. */
  lemma LegacyNameRule(d: GltfMaterial, textures: Option<seq<TextureSource>>, settings: ShaderSettings, standard: Shader)
    ensures LegacyMaterial(d, textures, settings, standard).name == d.name
  {
  }

  /**
   * The two workflows never mix: a material with a metallic-roughness block
   * has none of the specular-glossiness properties or keyword, and one with
   * only a specular-glossiness block has none of the metallic-roughness ones.
   */
  lemma LegacyWorkflowsExclusive(d: GltfMaterial, textures: Option<seq<TextureSource>>, settings: ShaderSettings, standard: Shader)
    ensures var m := LegacyMaterial(d, textures, settings, standard);
            && (d.pbrMetallicRoughness.Some? ==>
                  && m.Get(SpecColor).None? && m.Get(GlossyReflections).None? && m.Get(SpecGlossMap).None?
                  && SPECGLOSSMAP !in m.keywords)
            && (d.pbrMetallicRoughness.None? && d.specularGlossiness.Some? ==>
                  && m.Get(Metallic).None? && m.Get(Roughness).None? && m.Get(MetallicGlossMap).None?
                  && METALLICGLOSSMAP !in m.keywords)
  {
    LegacyBaseShape(d, textures, settings, standard);
    LegacyStageSpans(d, textures, settings, standard, 0, 4);
    var b := LegacyStage(d, textures, settings, standard, 0);
    var m := LegacyStage(d, textures, settings, standard, 4);
    if d.pbrMetallicRoughness.Some? {
      MetalRoughKeptCore(b, m);
    } else if d.specularGlossiness.Some? {
      SpecGlossKeptCore(b, m);
    }
  }

  lemma MetalRoughKeptCore(b: MaterialState, m: MaterialState)
    requires b.props.Keys <= MetalRoughProps && b.keywords <= {METALLICGLOSSMAP} && LegacySpans(b, m, 0, 4)
    ensures m.Get(SpecColor).None? && m.Get(GlossyReflections).None? && m.Get(SpecGlossMap).None? && SPECGLOSSMAP !in m.keywords
  {
    assert SpecColor !in b.props && GlossyReflections !in b.props && SpecGlossMap !in b.props;
    assert m.Get(SpecColor) == b.Get(SpecColor) && m.Get(GlossyReflections) == b.Get(GlossyReflections) && m.Get(SpecGlossMap) == b.Get(SpecGlossMap);
  }

  lemma SpecGlossKeptCore(b: MaterialState, m: MaterialState)
    requires b.props.Keys <= SpecGlossProps && b.keywords <= {SPECGLOSSMAP} && LegacySpans(b, m, 0, 4)
    ensures m.Get(Metallic).None? && m.Get(Roughness).None? && m.Get(MetallicGlossMap).None? && METALLICGLOSSMAP !in m.keywords
  {
    assert Metallic !in b.props && Roughness !in b.props && MetallicGlossMap !in b.props;
    assert m.Get(Metallic) == b.Get(Metallic) && m.Get(Roughness) == b.Get(Roughness) && m.Get(MetallicGlossMap) == b.Get(MetallicGlossMap);
  }

  /** What the common steps may add to a material. */
  const CommonProps: set<Prop> := {BumpMap, BumpScale, OcclusionMap, EmissionColor, EmissionMap, AlphaCutoff}

  /**
   * Without either parameter block the material is a "Standard" material
   * that still receives the normal, occlusion, emission and cutoff steps,
   * and nothing else.
   */
  lemma FallbackMaterial(d: GltfMaterial, textures: Option<seq<TextureSource>>, settings: ShaderSettings, standard: Shader)
    requires d.pbrMetallicRoughness.None? && d.specularGlossiness.None?
    ensures var m := LegacyMaterial(d, textures, settings, standard);
            && m.shader == standard
            && m.props.Keys <= CommonProps
            && m.keywords <= {NORMALMAP, EMISSION}
  {
    LegacyBaseShape(d, textures, settings, standard);
    LegacyStageSpans(d, textures, settings, standard, 0, 4);
    FallbackCore(LegacyStage(d, textures, settings, standard, 0), LegacyStage(d, textures, settings, standard, 4));
  }

  lemma FallbackCore(b: MaterialState, m: MaterialState)
    requires b.props == map[] && b.keywords == {} && LegacySpans(b, m, 0, 4)
    ensures m.props.Keys <= CommonProps && m.keywords <= {NORMALMAP, EMISSION}
  {
    forall p | p in m.props
      ensures p in CommonProps
    {
      assert m.Get(p).Some? && b.Get(p).None?;
    }
    forall k | k in m.keywords
      ensures k in {NORMALMAP, EMISSION}
    {
      assert k !in b.keywords;
    }
  }
}
