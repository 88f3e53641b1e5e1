/**
 * The MRTK branch of `GLTFMaterial.CreateMaterial`, taken when the shader
 * "Graphics Tools/Standard" is found: one material whose properties and
 * keywords are set step by step, with the channel map packed from the
 * metallic-roughness and occlusion textures.
 *
 * `UnifiedMaterial` is the state the branch leaves; `CreateUnified` is the
 * branch itself, proved to leave exactly that state; the lemmas state the
 * branch's rules about that state.
 */
module UnifiedPath {
  import opened Wrappers
  import opened Colors
  import opened Textures
  import opened ChannelPack
  import opened UnityMaterial
  import opened Descriptor

  /** The name given when the glTF name is null or empty. */
  const UnnamedMaterial := "glTF Material "

  function Abs(x: real): real {
    if x < 0.0 then -x else x
  }

  /** `string.IsNullOrEmpty(name) ? "glTF Material " : name`. */
  function UnifiedName(name: Option<string>): string {
    if name.None? || name.value == "" then UnnamedMaterial else name.value
  }

  /**
   * The code as written dereferences `pbrMetallicRoughness` unconditionally on
   * this branch, so a material without that block (allowed by glTF 2.0) throws.
   */
  function MetalRoughnessAsWritten(pbr: Option<PbrMetalRoughness>): Result<PbrMetalRoughness, Fault> {
    if pbr.Some? then Success(pbr.value) else Failure(NullReference)
  }

  /** The block the branch reads: the material's own, or the glTF defaults when it has none. */
  function MetalRoughnessOrDefault(pbr: Option<PbrMetalRoughness>): (r: PbrMetalRoughness)
    ensures MetalRoughnessAsWritten(pbr).Success? ==> r == MetalRoughnessAsWritten(pbr).value
    ensures pbr.None? ==> r == DefaultMetalRoughness
  {
    if pbr.Some? then pbr.value else DefaultMetalRoughness
  }

  /**
   * The base-colour fetch as written indexes `textures` directly: no null
   * check and no range check, unlike every other fetch of the file.
   */
  function BaseColorFetchAsWritten(textures: Option<seq<TextureSource>>, info: Option<TextureInfo>): Result<Option<Image>, Fault> {
    if !HasIndex(info) then Success(None)
    else if textures.None? then Failure(NullReference)
    else if |textures.value| <= info.value.index then Failure(IndexOutOfRange)
    else Success(textures.value[info.value.index].GetTextureCached(false))
  }

  /** The base-colour fetch through the guarded lookup, in the sRGB colour space. */
  function BaseColorFetch(textures: Option<seq<TextureSource>>, info: Option<TextureInfo>): (r: Option<Image>)
    ensures BaseColorFetchAsWritten(textures, info).Success? ==> r == BaseColorFetchAsWritten(textures, info).value
    ensures r.Some? ==> Resolves(textures, info)
  {
    if HasIndex(info) then TryGetTexture(textures, info, false).texture else None
  }

  /** A base-colour index past the end of the texture results throws as written and is skipped with a warning once guarded. */
  lemma BaseColorPastEndThrows(source: TextureSource)
    ensures BaseColorFetchAsWritten(Some([source]), Some(TextureInfo(1, 0, 1.0))) == Failure(IndexOutOfRange)
    ensures BaseColorFetchAsWritten(None, Some(TextureInfo(0, 0, 1.0))) == Failure(NullReference)
    ensures BaseColorFetch(Some([source]), Some(TextureInfo(1, 0, 1.0))).None?
    ensures TryGetTexture(Some([source]), Some(TextureInfo(1, 0, 1.0)), false).warned
  {
  }

  // ---- The branch, step by step ----

  /** Lines 67-86: the copy of the override material or a new MRTK material, its name, and two keywords. */
  function UnifiedStart(d: GltfMaterial, settings: ShaderSettings, mrtk: Shader): MaterialState {
    var created := if settings.overrideMaterial.Some? then settings.overrideMaterial.value else NewMaterial(mrtk);
    created.WithName(Some(UnifiedName(d.name))).Enable(DIRECTIONAL_LIGHT).Enable(SPECULAR_HIGHLIGHTS)
  }

  /** Lines 87-102: the base-colour texture if one is fetched, then the base colour. */
  function BaseColorStep(s: MaterialState, pbr: PbrMetalRoughness, textures: Option<seq<TextureSource>>): MaterialState {
    var tex := BaseColorFetch(textures, pbr.baseColorTexture);
    var s1 := if tex.Some? then s.Set(MainTex, TexVal(tex)) else s;
    s1.Set(MainColor, ColorVal(pbr.baseColorFactor))
  }

  /** Lines 104-127: the blend state for MASK and BLEND; OPAQUE leaves the material as it is. */
  function AlphaStep(s: MaterialState, mode: AlphaMode): MaterialState {
    match mode
    case MASK =>
      s.Set(SrcBlend, IntVal(BlendOne)).Set(DstBlend, IntVal(BlendZero)).Set(ZWrite, IntVal(1)).Set(Mode, IntVal(3))
       .WithTag("RenderType", "Cutout")
       .Enable(ALPHATEST_ON).Disable(ALPHABLEND_ON).Disable(ALPHAPREMULTIPLY_ON)
       .WithQueue(2450)
    case BLEND =>
      s.Set(SrcBlend, IntVal(BlendOne)).Set(DstBlend, IntVal(BlendOneMinusSrcAlpha)).Set(ZWrite, IntVal(0)).Set(Mode, IntVal(3))
       .WithTag("RenderType", "Transparency")
       .Disable(ALPHATEST_ON).Disable(ALPHABLEND_ON).Enable(ALPHAPREMULTIPLY_ON)
       .WithQueue(3000)
    case OPAQUE => s
  }

  /** Lines 129-133: emission only with an emissive index and a shader that has `_EmissionMap`. */
  function EmissionStep(s: MaterialState, d: GltfMaterial): MaterialState {
    if HasIndex(d.emissiveTexture) && s.HasProperty(EmissionMap)
    then s.Enable(EMISSION).Set(EmissiveColor, ColorVal(d.emissiveFactor))
    else s
  }

  /** The occlusion texture fetched for packing (line 139-152). */
  function OcclusionFetch(d: GltfMaterial, textures: Option<seq<TextureSource>>): Option<Image> {
    if HasIndex(d.occlusionTexture) then TryGetTexture(textures, d.occlusionTexture, true).texture else None
  }

  /** The metallic-roughness texture with its pixels replaced by the packed channel map (lines 160-187). */
  function PackedTexture(tex: Image, occlusion: Option<Image>): Image {
    var occlusionPixels := OcclusionPixels(occlusion, |tex.pixels|);
    OcclusionPixelsCover(occlusion, tex.pixels);
    tex.(pixels := Packed(tex.pixels, occlusionPixels))
  }

  /** Lines 135-205: the channel map and `_CHANNEL_MAP`, then smoothness and metallic, all under a metallic-roughness index. */
  function ChannelMapStep(s: MaterialState, d: GltfMaterial, pbr: PbrMetalRoughness, textures: Option<seq<TextureSource>>): MaterialState {
    if !HasIndex(pbr.metallicRoughnessTexture) then s
    else
      var occlusion := OcclusionFetch(d, textures);
      var fetched := TryGetTexture(textures, pbr.metallicRoughnessTexture, true).texture;
      var s1 :=
        if fetched.None? then s
        else if fetched.value.readable then s.Set(ChannelMap, TexVal(Some(PackedTexture(fetched.value, occlusion)))).Enable(CHANNEL_MAP)
        else s.Disable(CHANNEL_MAP);
      s1.Set(Smoothness, FloatVal(Abs(pbr.roughnessFactor - 1.0))).Set(Metallic, FloatVal(pbr.metallicFactor))
  }

  /** Lines 207-222: the normal map, its scale and `_NORMAL_MAP` when a normal texture is fetched. */
  function NormalStep(s: MaterialState, d: GltfMaterial, textures: Option<seq<TextureSource>>): MaterialState {
    if !HasIndex(d.normalTexture) then s
    else
      var fetched := TryGetTexture(textures, d.normalTexture, true).texture;
      if fetched.None? then s
      else s.Set(NormalMap, TexVal(fetched)).Set(NormalMapScale, FloatVal(d.normalTexture.value.scale)).Enable(NORMAL_MAP)
  }

  /** Lines 224-227: culling off for a double-sided material. */
  function CullStep(s: MaterialState, d: GltfMaterial): MaterialState {
    if d.doubleSided then s.Set(CullMode, FloatVal(CullOff as real)) else s
  }

  /** Step `k` of the branch, 1 to 6: base colour, alpha mode, emission, channel map, normal map, culling. */
  function StepAt(s: MaterialState, k: nat, d: GltfMaterial, textures: Option<seq<TextureSource>>): MaterialState
    requires 1 <= k <= 6
  {
    match k
    case 1 => BaseColorStep(s, MetalRoughnessOrDefault(d.pbrMetallicRoughness), textures)
    case 2 => AlphaStep(s, d.alphaMode)
    case 3 => EmissionStep(s, d)
    case 4 => ChannelMapStep(s, d, MetalRoughnessOrDefault(d.pbrMetallicRoughness), textures)
    case 5 => NormalStep(s, d, textures)
    case _ => CullStep(s, d)
  }

  /** The state after the first `k` steps of the branch (0 is the created material). */
  function Stage(d: GltfMaterial, settings: ShaderSettings, mrtk: Shader, textures: Option<seq<TextureSource>>, k: nat): MaterialState
    requires k <= 6
  {
    if k == 0 then UnifiedStart(d, settings, mrtk)
    else StepAt(Stage(d, settings, mrtk, textures, k - 1), k, d, textures)
  }

  /** The material the MRTK branch hands to `onFinish`. */
  function UnifiedMaterial(d: GltfMaterial, settings: ShaderSettings, mrtk: Shader, textures: Option<seq<TextureSource>>): MaterialState {
    Stage(d, settings, mrtk, textures, 6)
  }

  /** Lines 87-102. */
  method ApplyBaseColor(material: Material, pbr: PbrMetalRoughness, textures: Option<seq<TextureSource>>)
    modifies material
    ensures material.State() == BaseColorStep(old(material.State()), pbr, textures)
  {
    if HasIndex(pbr.baseColorTexture) {
      var tex := TryGetTexture(textures, pbr.baseColorTexture, false).texture;
      if tex.Some? {
        material.SetProperty(MainTex, TexVal(tex));
      }
    }
    material.SetProperty(MainColor, ColorVal(pbr.baseColorFactor));
  }

  /** Lines 104-127. */
  method ApplyAlphaMode(material: Material, mode: AlphaMode)
    modifies material
    ensures material.State() == AlphaStep(old(material.State()), mode)
  {
    if mode == MASK {
      material.SetProperty(SrcBlend, IntVal(BlendOne));
      material.SetProperty(DstBlend, IntVal(BlendZero));
      material.SetProperty(ZWrite, IntVal(1));
      material.SetProperty(Mode, IntVal(3));
      material.SetOverrideTag("RenderType", "Cutout");
      material.EnableKeyword(ALPHATEST_ON);
      material.DisableKeyword(ALPHABLEND_ON);
      material.DisableKeyword(ALPHAPREMULTIPLY_ON);
      material.SetRenderQueue(2450);
    } else if mode == BLEND {
      material.SetProperty(SrcBlend, IntVal(BlendOne));
      material.SetProperty(DstBlend, IntVal(BlendOneMinusSrcAlpha));
      material.SetProperty(ZWrite, IntVal(0));
      material.SetProperty(Mode, IntVal(3));
      material.SetOverrideTag("RenderType", "Transparency");
      material.DisableKeyword(ALPHATEST_ON);
      material.DisableKeyword(ALPHABLEND_ON);
      material.EnableKeyword(ALPHAPREMULTIPLY_ON);
      material.SetRenderQueue(3000);
    }
  }

  /** Lines 129-133. */
  method ApplyEmission(material: Material, d: GltfMaterial)
    modifies material
    ensures material.State() == EmissionStep(old(material.State()), d)
  {
    if HasIndex(d.emissiveTexture) && material.HasProperty(EmissionMap) {
      material.EnableKeyword(EMISSION);
      material.SetProperty(EmissiveColor, ColorVal(d.emissiveFactor));
    }
  }

  /** Lines 135-205: fetch the occlusion texture, fetch and pack the metallic-roughness texture, set smoothness and metallic. */
  method ApplyChannelMap(material: Material, d: GltfMaterial, pbr: PbrMetalRoughness, textures: Option<seq<TextureSource>>)
    modifies material
    ensures material.State() == ChannelMapStep(old(material.State()), d, pbr, textures)
  {
    if HasIndex(pbr.metallicRoughnessTexture) {
      var occlusion: Option<Image> := None;
      if d.occlusionTexture.Some? && d.occlusionTexture.value.index >= 0 {
        var tex := TryGetTexture(textures, d.occlusionTexture, true).texture;
        if tex.Some? {
          occlusion := tex;
        }
      }
      assert occlusion == OcclusionFetch(d, textures);
      var fetched := TryGetTexture(textures, pbr.metallicRoughnessTexture, true).texture;
      if fetched.Some? {
        var tex := fetched.value;
        if tex.readable {
          var pixels := tex.pixels;
          var occlusionPixels := OcclusionPixels(occlusion, |pixels|);
          OcclusionPixelsCover(occlusion, pixels);
          var pixelCache := PackChannels(pixels, occlusionPixels);
          var packed := tex.(pixels := pixelCache[..]);
          assert packed == PackedTexture(tex, occlusion);
          material.SetProperty(ChannelMap, TexVal(Some(packed)));
          material.EnableKeyword(CHANNEL_MAP);
        } else {
          material.DisableKeyword(CHANNEL_MAP);
        }
      }
      material.SetProperty(Smoothness, FloatVal(Abs(pbr.roughnessFactor - 1.0)));
      material.SetProperty(Metallic, FloatVal(pbr.metallicFactor));
    }
  }

  /** Lines 207-222. */
  method ApplyNormal(material: Material, d: GltfMaterial, textures: Option<seq<TextureSource>>)
    modifies material
    ensures material.State() == NormalStep(old(material.State()), d, textures)
  {
    if HasIndex(d.normalTexture) {
      var tex := TryGetTexture(textures, d.normalTexture, true).texture;
      if tex.Some? {
        material.SetProperty(NormalMap, TexVal(tex));
        material.SetProperty(NormalMapScale, FloatVal(d.normalTexture.value.scale));
        material.EnableKeyword(NORMAL_MAP);
      }
    }
  }

  /** The MRTK branch of `CreateMaterial`, lines 67-230. */
  method CreateUnified(d: GltfMaterial, textures: Option<seq<TextureSource>>, settings: ShaderSettings, mrtk: Shader)
    returns (material: Material)
    ensures fresh(material)
    ensures material.State() == UnifiedMaterial(d, settings, mrtk, textures)
  {
    var pbr := MetalRoughnessOrDefault(d.pbrMetallicRoughness);
    if settings.overrideMaterial.Some? {
      material := new Material.Copy(settings.overrideMaterial.value);
    } else {
      material := new Material(mrtk);
    }
    material.SetName(Some(UnifiedName(d.name)));
    material.EnableKeyword(DIRECTIONAL_LIGHT);
    material.EnableKeyword(SPECULAR_HIGHLIGHTS);
    assert material.State() == Stage(d, settings, mrtk, textures, 0);
    ApplyBaseColor(material, pbr, textures);
    assert material.State() == Stage(d, settings, mrtk, textures, 1);
    ApplyAlphaMode(material, d.alphaMode);
    assert material.State() == Stage(d, settings, mrtk, textures, 2);
    ApplyEmission(material, d);
    assert material.State() == Stage(d, settings, mrtk, textures, 3);
    ApplyChannelMap(material, d, pbr, textures);
    assert material.State() == Stage(d, settings, mrtk, textures, 4);
    ApplyNormal(material, d, textures);
    assert material.State() == Stage(d, settings, mrtk, textures, 5);
    if d.doubleSided {
      material.SetProperty(CullMode, FloatVal(CullOff as real));
    }
  }

  // ---- What each step touches ----

  /** The step of the branch that writes property `p`; 0 for the properties no step after the creation writes. */
  function PropStep(p: Prop): nat {
    match p
    case MainTex | MainColor => 1
    case SrcBlend | DstBlend | ZWrite | Mode => 2
    case EmissiveColor => 3
    case ChannelMap | Smoothness | Metallic => 4
    case NormalMap | NormalMapScale => 5
    case CullMode => 6
    case _ => 0
  }

  /** The step of the branch that switches keyword `k`; 0 for the keywords no step after the creation switches. */
  function KeywordStep(k: Keyword): nat {
    match k
    case ALPHATEST_ON | ALPHABLEND_ON | ALPHAPREMULTIPLY_ON => 2
    case EMISSION => 3
    case CHANNEL_MAP => 4
    case NORMAL_MAP => 5
    case _ => 0
  }

  /** The alpha step, the only one that sets the tag and the render queue. */
  const AlphaStepIndex := 2

  /** From `a` to `b`, at most steps `lo + 1` to `hi` have acted. */
  predicate Spans(a: MaterialState, b: MaterialState, lo: nat, hi: nat) {
    && a.shader == b.shader && a.name == b.name
    && (forall p :: !(lo < PropStep(p) <= hi) ==> a.Get(p) == b.Get(p))
    && (forall k :: !(lo < KeywordStep(k) <= hi) ==> (k in a.keywords <==> k in b.keywords))
    && (!(lo < AlphaStepIndex <= hi) ==> a.tags == b.tags && a.renderQueue == b.renderQueue)
  }

  lemma SpansTrans(a: MaterialState, b: MaterialState, c: MaterialState, i: nat, j: nat, k: nat)
    requires i <= j <= k && Spans(a, b, i, j) && Spans(b, c, j, k)
    ensures Spans(a, c, i, k)
  {
  }

  lemma BaseColorFootprint(s: MaterialState, pbr: PbrMetalRoughness, textures: Option<seq<TextureSource>>)
    ensures Spans(s, BaseColorStep(s, pbr, textures), 0, 1)
  {
  }

  lemma AlphaFootprint(s: MaterialState, mode: AlphaMode)
    ensures Spans(s, AlphaStep(s, mode), 1, 2)
  {
  }

  lemma EmissionFootprint(s: MaterialState, d: GltfMaterial)
    ensures Spans(s, EmissionStep(s, d), 2, 3)
  {
  }

  lemma ChannelMapFootprint(s: MaterialState, d: GltfMaterial, pbr: PbrMetalRoughness, textures: Option<seq<TextureSource>>)
    ensures Spans(s, ChannelMapStep(s, d, pbr, textures), 3, 4)
  {
  }

  lemma NormalFootprint(s: MaterialState, d: GltfMaterial, textures: Option<seq<TextureSource>>)
    ensures Spans(s, NormalStep(s, d, textures), 4, 5)
  {
  }

  lemma CullFootprint(s: MaterialState, d: GltfMaterial)
    ensures Spans(s, CullStep(s, d), 5, 6)
  {
  }

  /** Step `k` touches only what is numbered `k`. */
  lemma StepSpans(s: MaterialState, k: nat, d: GltfMaterial, textures: Option<seq<TextureSource>>)
    requires 1 <= k <= 6
    ensures Spans(s, StepAt(s, k, d, textures), k - 1, k)
  {
    var pbr := MetalRoughnessOrDefault(d.pbrMetallicRoughness);
    match k
    case 1 => BaseColorFootprint(s, pbr, textures);
    case 2 => AlphaFootprint(s, d.alphaMode);
    case 3 => EmissionFootprint(s, d);
    case 4 => ChannelMapFootprint(s, d, pbr, textures);
    case 5 => NormalFootprint(s, d, textures);
    case _ => CullFootprint(s, d);
  }

  /** Between stages `i` and `j`, only steps `i + 1` to `j` have acted. */
  lemma {:induction false} StageSpans(d: GltfMaterial, settings: ShaderSettings, mrtk: Shader, textures: Option<seq<TextureSource>>, i: nat, j: nat)
    requires i <= j <= 6
    ensures Spans(Stage(d, settings, mrtk, textures, i), Stage(d, settings, mrtk, textures, j), i, j)
    decreases j
  {
    if i < j {
      StageSpans(d, settings, mrtk, textures, i, j - 1);
      StepSpans(Stage(d, settings, mrtk, textures, j - 1), j, d, textures);
      SpansTrans(Stage(d, settings, mrtk, textures, i), Stage(d, settings, mrtk, textures, j - 1), Stage(d, settings, mrtk, textures, j), i, j - 1, j);
    }
  }

  // What each step does to the properties it touches.

  lemma BaseColorStepEffect(s: MaterialState, pbr: PbrMetalRoughness, textures: Option<seq<TextureSource>>)
    ensures var t := BaseColorStep(s, pbr, textures);
            var tex := BaseColorFetch(textures, pbr.baseColorTexture);
            && t.Get(MainColor) == Some(ColorVal(pbr.baseColorFactor))
            && t.Get(MainTex) == if tex.Some? then Some(TexVal(tex)) else s.Get(MainTex)
  {
  }

  lemma EmissionStepEffect(s: MaterialState, d: GltfMaterial)
    ensures var t := EmissionStep(s, d);
            var on := HasIndex(d.emissiveTexture) && s.HasProperty(EmissionMap);
            && (EMISSION in t.keywords <==> on || EMISSION in s.keywords)
            && (on ==> t.Get(EmissiveColor) == Some(ColorVal(d.emissiveFactor)))
            && (!on ==> t == s)
  {
  }

  lemma NormalStepEffect(s: MaterialState, d: GltfMaterial, textures: Option<seq<TextureSource>>)
    ensures var t := NormalStep(s, d, textures);
            var fetched := if HasIndex(d.normalTexture) then TryGetTexture(textures, d.normalTexture, true).texture else None;
            && (fetched.Some? ==>
                  && t.Get(NormalMap) == Some(TexVal(fetched))
                  && t.Get(NormalMapScale) == Some(FloatVal(d.normalTexture.value.scale))
                  && NORMAL_MAP in t.keywords)
            && (fetched.None? ==> t == s)
  {
  }

  // ---- Rules of the branch ----

  /** The part of a material the alpha table governs is the same in `a` and `b`. */
  predicate SameAlphaState(a: MaterialState, b: MaterialState) {
    && a.Get(SrcBlend) == b.Get(SrcBlend) && a.Get(DstBlend) == b.Get(DstBlend)
    && a.Get(ZWrite) == b.Get(ZWrite) && a.Get(Mode) == b.Get(Mode)
    && (ALPHATEST_ON in a.keywords <==> ALPHATEST_ON in b.keywords)
    && (ALPHABLEND_ON in a.keywords <==> ALPHABLEND_ON in b.keywords)
    && (ALPHAPREMULTIPLY_ON in a.keywords <==> ALPHAPREMULTIPLY_ON in b.keywords)
    && a.tags == b.tags && a.renderQueue == b.renderQueue
  }

  /** The row of the alpha table for MASK or BLEND. */
  predicate AlphaRow(m: MaterialState, dst: int, zWrite: int, renderType: string, premultiply: bool, queue: int) {
    && m.Get(SrcBlend) == Some(IntVal(BlendOne)) && m.Get(DstBlend) == Some(IntVal(dst))
    && m.Get(ZWrite) == Some(IntVal(zWrite)) && m.Get(Mode) == Some(IntVal(3))
    && "RenderType" in m.tags && m.tags["RenderType"] == renderType
    && (ALPHATEST_ON in m.keywords <==> !premultiply)
    && ALPHABLEND_ON !in m.keywords
    && (ALPHAPREMULTIPLY_ON in m.keywords <==> premultiply)
    && m.renderQueue == queue
  }

  /**
   * The alpha-mode table: MASK is One/Zero, ZWrite 1, "Cutout", alpha test,
   * queue 2450; BLEND is One/OneMinusSrcAlpha, ZWrite 0, "Transparency",
   * premultiplied alpha, queue 3000; OPAQUE leaves all of it as the created
   * material had it.
   */
  lemma UnifiedAlphaTable(d: GltfMaterial, settings: ShaderSettings, mrtk: Shader, textures: Option<seq<TextureSource>>)
    ensures var m := UnifiedMaterial(d, settings, mrtk, textures);
            && (d.alphaMode == MASK ==> AlphaRow(m, BlendZero, 1, "Cutout", false, 2450))
            && (d.alphaMode == BLEND ==> AlphaRow(m, BlendOneMinusSrcAlpha, 0, "Transparency", true, 3000))
            && (d.alphaMode == OPAQUE ==> SameAlphaState(m, UnifiedStart(d, settings, mrtk)))
  {
    var s1 := Stage(d, settings, mrtk, textures, 1);
    var s2 := Stage(d, settings, mrtk, textures, 2);
    var m := UnifiedMaterial(d, settings, mrtk, textures);
    AlphaKeptToEnd(d, settings, mrtk, textures);
    AlphaStepRows(s1, d.alphaMode);
    if d.alphaMode == MASK {
      SameAlphaRow(s2, m, BlendZero, 1, "Cutout", false, 2450);
    } else if d.alphaMode == BLEND {
      SameAlphaRow(s2, m, BlendOneMinusSrcAlpha, 0, "Transparency", true, 3000);
    } else {
      StageSpans(d, settings, mrtk, textures, 0, 1);
      AlphaKeptOutsideAlphaStep(Stage(d, settings, mrtk, textures, 0), s1, 0, 1);
      SameAlphaTrans(m, s2, UnifiedStart(d, settings, mrtk));
    }
  }

  /** The rows of the alpha table hold right after the alpha step. */
  lemma AlphaStepRows(s: MaterialState, mode: AlphaMode)
    ensures var t := AlphaStep(s, mode);
            && (mode == MASK ==> AlphaRow(t, BlendZero, 1, "Cutout", false, 2450))
            && (mode == BLEND ==> AlphaRow(t, BlendOneMinusSrcAlpha, 0, "Transparency", true, 3000))
            && (mode == OPAQUE ==> t == s)
  {
  }

  /** No step after the alpha step changes what the alpha table governs. */
  lemma AlphaKeptToEnd(d: GltfMaterial, settings: ShaderSettings, mrtk: Shader, textures: Option<seq<TextureSource>>)
    ensures SameAlphaState(Stage(d, settings, mrtk, textures, 2), UnifiedMaterial(d, settings, mrtk, textures))
  {
    StageSpans(d, settings, mrtk, textures, 2, 6);
    AlphaKeptOutsideAlphaStep(Stage(d, settings, mrtk, textures, 2), Stage(d, settings, mrtk, textures, 6), 2, 6);
  }

  /** Steps other than the alpha step keep what the alpha table governs. */
  lemma AlphaKeptOutsideAlphaStep(a: MaterialState, b: MaterialState, lo: nat, hi: nat)
    requires Spans(a, b, lo, hi) && !(lo < AlphaStepIndex <= hi)
    ensures SameAlphaState(a, b)
  {
    assert PropStep(SrcBlend) == PropStep(DstBlend) == PropStep(ZWrite) == PropStep(Mode) == AlphaStepIndex;
    assert KeywordStep(ALPHATEST_ON) == KeywordStep(ALPHABLEND_ON) == KeywordStep(ALPHAPREMULTIPLY_ON) == AlphaStepIndex;
  }

  lemma SameAlphaTrans(a: MaterialState, b: MaterialState, c: MaterialState)
    requires SameAlphaState(a, b) && SameAlphaState(c, b)
    ensures SameAlphaState(a, c)
  {
  }

  lemma SameAlphaRow(a: MaterialState, b: MaterialState, dst: int, zWrite: int, renderType: string, premultiply: bool, queue: int)
    requires SameAlphaState(a, b) && AlphaRow(a, dst, zWrite, renderType, premultiply, queue)
    ensures AlphaRow(b, dst, zWrite, renderType, premultiply, queue)
  {
  }

  /**
   * Emission: `_EMISSION` is on exactly when the emissive index is
   * non-negative and the shader has `_EmissionMap`, or the created material
   * already had it; the emissive texture itself is never fetched on this branch.
   */
  lemma UnifiedEmissionRule(d: GltfMaterial, settings: ShaderSettings, mrtk: Shader, textures: Option<seq<TextureSource>>)
    ensures var m := UnifiedMaterial(d, settings, mrtk, textures);
            var s := UnifiedStart(d, settings, mrtk);
            var on := HasIndex(d.emissiveTexture) && m.HasProperty(EmissionMap);
            && (EMISSION in m.keywords <==> on || EMISSION in s.keywords)
            && (on ==> m.Get(EmissiveColor) == Some(ColorVal(d.emissiveFactor)))
            && (!on ==> m.Get(EmissiveColor) == s.Get(EmissiveColor))
            && m.Get(EmissionMap) == s.Get(EmissionMap)
  {
    StageSpans(d, settings, mrtk, textures, 0, 2);
    StageSpans(d, settings, mrtk, textures, 3, 6);
    EmissionRuleCore(Stage(d, settings, mrtk, textures, 0), Stage(d, settings, mrtk, textures, 2), Stage(d, settings, mrtk, textures, 6), d);
  }

  /** The emission rule for any states related as the branch relates them. */
  lemma EmissionRuleCore(s0: MaterialState, s2: MaterialState, m: MaterialState, d: GltfMaterial)
    requires Spans(s0, s2, 0, 2) && Spans(EmissionStep(s2, d), m, 3, 6)
    ensures var on := HasIndex(d.emissiveTexture) && m.HasProperty(EmissionMap);
            && (EMISSION in m.keywords <==> on || EMISSION in s0.keywords)
            && (on ==> m.Get(EmissiveColor) == Some(ColorVal(d.emissiveFactor)))
            && (!on ==> m.Get(EmissiveColor) == s0.Get(EmissiveColor))
            && m.Get(EmissionMap) == s0.Get(EmissionMap)
  {
    var s3 := EmissionStep(s2, d);
    EmissionStepEffect(s2, d);
    assert s0.Get(EmissiveColor) == s2.Get(EmissiveColor) && s0.Get(EmissionMap) == s2.Get(EmissionMap);
    assert m.Get(EmissiveColor) == s3.Get(EmissiveColor) && m.Get(EmissionMap) == s3.Get(EmissionMap);
  }

  /**
   * The channel map: packed and bound, with `_CHANNEL_MAP` on, only when the
   * metallic-roughness index is non-negative and the fetched texture is
   * readable; a fetched unreadable texture turns `_CHANNEL_MAP` off and binds
   * nothing; otherwise both stay as the created material had them.
   */
  lemma UnifiedChannelMapRule(d: GltfMaterial, settings: ShaderSettings, mrtk: Shader, textures: Option<seq<TextureSource>>)
    ensures var m := UnifiedMaterial(d, settings, mrtk, textures);
            var s := UnifiedStart(d, settings, mrtk);
            var pbr := MetalRoughnessOrDefault(d.pbrMetallicRoughness);
            var fetched := if HasIndex(pbr.metallicRoughnessTexture) then TryGetTexture(textures, pbr.metallicRoughnessTexture, true).texture else None;
            && (fetched.Some? && fetched.value.readable ==>
                  && CHANNEL_MAP in m.keywords
                  && m.Get(ChannelMap) == Some(TexVal(Some(PackedTexture(fetched.value, OcclusionFetch(d, textures))))))
            && (fetched.Some? && !fetched.value.readable ==>
                  CHANNEL_MAP !in m.keywords && m.Get(ChannelMap) == s.Get(ChannelMap))
            && (fetched.None? ==>
                  (CHANNEL_MAP in m.keywords <==> CHANNEL_MAP in s.keywords) && m.Get(ChannelMap) == s.Get(ChannelMap))
  {
    StageSpans(d, settings, mrtk, textures, 0, 3);
    StageSpans(d, settings, mrtk, textures, 4, 6);
    ChannelMapRuleCore(Stage(d, settings, mrtk, textures, 0), Stage(d, settings, mrtk, textures, 3), Stage(d, settings, mrtk, textures, 6),
                       d, MetalRoughnessOrDefault(d.pbrMetallicRoughness), textures);
  }

  /** The channel-map, smoothness and metallic rules for any states related as the branch relates them. */
  lemma ChannelMapRuleCore(s0: MaterialState, s3: MaterialState, m: MaterialState, d: GltfMaterial, pbr: PbrMetalRoughness, textures: Option<seq<TextureSource>>)
    requires Spans(s0, s3, 0, 3) && Spans(ChannelMapStep(s3, d, pbr, textures), m, 4, 6)
    ensures var fetched := if HasIndex(pbr.metallicRoughnessTexture) then TryGetTexture(textures, pbr.metallicRoughnessTexture, true).texture else None;
            && (fetched.Some? && fetched.value.readable ==>
                  && CHANNEL_MAP in m.keywords
                  && m.Get(ChannelMap) == Some(TexVal(Some(PackedTexture(fetched.value, OcclusionFetch(d, textures))))))
            && (fetched.Some? && !fetched.value.readable ==>
                  CHANNEL_MAP !in m.keywords && m.Get(ChannelMap) == s0.Get(ChannelMap))
            && (fetched.None? ==>
                  (CHANNEL_MAP in m.keywords <==> CHANNEL_MAP in s0.keywords) && m.Get(ChannelMap) == s0.Get(ChannelMap))
            && (HasIndex(pbr.metallicRoughnessTexture) ==>
                  m.Get(Smoothness) == Some(FloatVal(Abs(pbr.roughnessFactor - 1.0))) && m.Get(Metallic) == Some(FloatVal(pbr.metallicFactor)))
            && (!HasIndex(pbr.metallicRoughnessTexture) ==>
                  m.Get(Smoothness) == s0.Get(Smoothness) && m.Get(Metallic) == s0.Get(Metallic))
  {
    var s4 := ChannelMapStep(s3, d, pbr, textures);
    ChannelMapStepEffect(s3, d, pbr, textures);
    assert s0.Get(ChannelMap) == s3.Get(ChannelMap) && m.Get(ChannelMap) == s4.Get(ChannelMap);
    assert s0.Get(Smoothness) == s3.Get(Smoothness) && m.Get(Smoothness) == s4.Get(Smoothness);
    assert s0.Get(Metallic) == s3.Get(Metallic) && m.Get(Metallic) == s4.Get(Metallic);
  }

  /** What the channel-map step itself does to the channel map, its keyword, smoothness and metallic. */
  lemma ChannelMapStepEffect(s: MaterialState, d: GltfMaterial, pbr: PbrMetalRoughness, textures: Option<seq<TextureSource>>)
    ensures var t := ChannelMapStep(s, d, pbr, textures);
            var fetched := if HasIndex(pbr.metallicRoughnessTexture) then TryGetTexture(textures, pbr.metallicRoughnessTexture, true).texture else None;
            && (fetched.Some? && fetched.value.readable ==>
                  CHANNEL_MAP in t.keywords && t.Get(ChannelMap) == Some(TexVal(Some(PackedTexture(fetched.value, OcclusionFetch(d, textures))))))
            && (fetched.Some? && !fetched.value.readable ==>
                  CHANNEL_MAP !in t.keywords && t.Get(ChannelMap) == s.Get(ChannelMap))
            && (fetched.None? ==>
                  (CHANNEL_MAP in t.keywords <==> CHANNEL_MAP in s.keywords) && t.Get(ChannelMap) == s.Get(ChannelMap))
            && (HasIndex(pbr.metallicRoughnessTexture) ==>
                  t.Get(Smoothness) == Some(FloatVal(Abs(pbr.roughnessFactor - 1.0))) && t.Get(Metallic) == Some(FloatVal(pbr.metallicFactor)))
            && (!HasIndex(pbr.metallicRoughnessTexture) ==> t == s)
  {
  }

  /**
   * The packed channel map holds metal in R, occlusion (or 1) in G, 0 in B
   * and 1 - roughness in A, texel by texel, and is as long as the
   * metallic-roughness texture.
   */
  lemma PackedTextureLayout(tex: Image, occlusion: Option<Image>)
    ensures var packed := PackedTexture(tex, occlusion).pixels;
            var occlusionPixels := OcclusionPixels(occlusion, |tex.pixels|);
            && |packed| == |tex.pixels|
            && forall c :: 0 <= c < |packed| ==>
                 && packed[c].r == tex.pixels[c].b
                 && packed[c].g == (if occlusionPixels.Some? then occlusion.value.pixels[c].r else 1.0)
                 && packed[c].b == 0.0
                 && packed[c].a == 1.0 - tex.pixels[c].g
  {
  }

  /**
   * Smoothness is `|roughness - 1|`, never negative, and metallic is the
   * metallic factor, both set exactly when the metallic-roughness index is
   * non-negative.
   */
  lemma UnifiedSmoothnessRule(d: GltfMaterial, settings: ShaderSettings, mrtk: Shader, textures: Option<seq<TextureSource>>)
    ensures var m := UnifiedMaterial(d, settings, mrtk, textures);
            var s := UnifiedStart(d, settings, mrtk);
            var pbr := MetalRoughnessOrDefault(d.pbrMetallicRoughness);
            && (HasIndex(pbr.metallicRoughnessTexture) ==>
                  && m.Get(Smoothness) == Some(FloatVal(Abs(pbr.roughnessFactor - 1.0)))
                  && m.Get(Smoothness).value.f >= 0.0
                  && m.Get(Metallic) == Some(FloatVal(pbr.metallicFactor)))
            && (!HasIndex(pbr.metallicRoughnessTexture) ==>
                  m.Get(Smoothness) == s.Get(Smoothness) && m.Get(Metallic) == s.Get(Metallic))
  {
    StageSpans(d, settings, mrtk, textures, 0, 3);
    StageSpans(d, settings, mrtk, textures, 4, 6);
    ChannelMapRuleCore(Stage(d, settings, mrtk, textures, 0), Stage(d, settings, mrtk, textures, 3), Stage(d, settings, mrtk, textures, 6),
                       d, MetalRoughnessOrDefault(d.pbrMetallicRoughness), textures);
  }

  /** Culling is switched off exactly for a double-sided material. */
  lemma UnifiedCullRule(d: GltfMaterial, settings: ShaderSettings, mrtk: Shader, textures: Option<seq<TextureSource>>)
    ensures var m := UnifiedMaterial(d, settings, mrtk, textures);
            m.Get(CullMode) == if d.doubleSided then Some(FloatVal(CullOff as real)) else UnifiedStart(d, settings, mrtk).Get(CullMode)
  {
    StageSpans(d, settings, mrtk, textures, 0, 5);
    CullRuleCore(Stage(d, settings, mrtk, textures, 0), Stage(d, settings, mrtk, textures, 5), d);
  }

  lemma CullRuleCore(s0: MaterialState, s5: MaterialState, d: GltfMaterial)
    requires Spans(s0, s5, 0, 5)
    ensures CullStep(s5, d).Get(CullMode) == if d.doubleSided then Some(FloatVal(CullOff as real)) else s0.Get(CullMode)
  {
    assert s0.Get(CullMode) == s5.Get(CullMode);
  }

  /** The normal map, its scale and `_NORMAL_MAP` are set exactly when a normal texture with a non-negative index is fetched. */
  lemma UnifiedNormalRule(d: GltfMaterial, settings: ShaderSettings, mrtk: Shader, textures: Option<seq<TextureSource>>)
    ensures var m := UnifiedMaterial(d, settings, mrtk, textures);
            var s := UnifiedStart(d, settings, mrtk);
            var fetched := if HasIndex(d.normalTexture) then TryGetTexture(textures, d.normalTexture, true).texture else None;
            && (fetched.Some? ==>
                  && m.Get(NormalMap) == Some(TexVal(fetched))
                  && m.Get(NormalMapScale) == Some(FloatVal(d.normalTexture.value.scale))
                  && NORMAL_MAP in m.keywords)
            && (fetched.None? ==>
                  && m.Get(NormalMap) == s.Get(NormalMap)
                  && m.Get(NormalMapScale) == s.Get(NormalMapScale)
                  && (NORMAL_MAP in m.keywords <==> NORMAL_MAP in s.keywords))
  {
    StageSpans(d, settings, mrtk, textures, 0, 4);
    StageSpans(d, settings, mrtk, textures, 5, 6);
    NormalRuleCore(Stage(d, settings, mrtk, textures, 0), Stage(d, settings, mrtk, textures, 4), Stage(d, settings, mrtk, textures, 6), d, textures);
  }

  lemma NormalRuleCore(s0: MaterialState, s4: MaterialState, m: MaterialState, d: GltfMaterial, textures: Option<seq<TextureSource>>)
    requires Spans(s0, s4, 0, 4) && Spans(NormalStep(s4, d, textures), m, 5, 6)
    ensures var fetched := if HasIndex(d.normalTexture) then TryGetTexture(textures, d.normalTexture, true).texture else None;
            && (fetched.Some? ==>
                  && m.Get(NormalMap) == Some(TexVal(fetched))
                  && m.Get(NormalMapScale) == Some(FloatVal(d.normalTexture.value.scale))
                  && NORMAL_MAP in m.keywords)
            && (fetched.None? ==>
                  && m.Get(NormalMap) == s0.Get(NormalMap)
                  && m.Get(NormalMapScale) == s0.Get(NormalMapScale)
                  && (NORMAL_MAP in m.keywords <==> NORMAL_MAP in s0.keywords))
  {
    var s5 := NormalStep(s4, d, textures);
    NormalStepEffect(s4, d, textures);
    assert s0.Get(NormalMap) == s4.Get(NormalMap) && s0.Get(NormalMapScale) == s4.Get(NormalMapScale);
    assert m.Get(NormalMap) == s5.Get(NormalMap) && m.Get(NormalMapScale) == s5.Get(NormalMapScale);
  }

  /** The base colour is always set; the main texture only when the base-colour texture resolves and is fetched. */
  lemma UnifiedBaseColorRule(d: GltfMaterial, settings: ShaderSettings, mrtk: Shader, textures: Option<seq<TextureSource>>)
    ensures var m := UnifiedMaterial(d, settings, mrtk, textures);
            var pbr := MetalRoughnessOrDefault(d.pbrMetallicRoughness);
            var tex := BaseColorFetch(textures, pbr.baseColorTexture);
            && m.Get(MainColor) == Some(ColorVal(pbr.baseColorFactor))
            && m.Get(MainTex) == if tex.Some? then Some(TexVal(tex)) else UnifiedStart(d, settings, mrtk).Get(MainTex)
  {
    StageSpans(d, settings, mrtk, textures, 1, 6);
    BaseColorRuleCore(Stage(d, settings, mrtk, textures, 0), Stage(d, settings, mrtk, textures, 6), MetalRoughnessOrDefault(d.pbrMetallicRoughness), textures);
  }

  lemma BaseColorRuleCore(s0: MaterialState, m: MaterialState, pbr: PbrMetalRoughness, textures: Option<seq<TextureSource>>)
    requires Spans(BaseColorStep(s0, pbr, textures), m, 1, 6)
    ensures var tex := BaseColorFetch(textures, pbr.baseColorTexture);
            && m.Get(MainColor) == Some(ColorVal(pbr.baseColorFactor))
            && m.Get(MainTex) == if tex.Some? then Some(TexVal(tex)) else s0.Get(MainTex)
  {
    var s1 := BaseColorStep(s0, pbr, textures);
    BaseColorStepEffect(s0, pbr, textures);
    assert m.Get(MainColor) == s1.Get(MainColor) && m.Get(MainTex) == s1.Get(MainTex);
  }

  /**
   * The material is a copy of the override material when one is configured
   * and an MRTK material otherwise; it is never left without a name, keeps a
   * non-empty glTF name verbatim, and has the two lighting keywords on.
   */
  lemma UnifiedIdentity(d: GltfMaterial, settings: ShaderSettings, mrtk: Shader, textures: Option<seq<TextureSource>>)
    ensures var m := UnifiedMaterial(d, settings, mrtk, textures);
            && m.shader == (if settings.overrideMaterial.Some? then settings.overrideMaterial.value.shader else mrtk)
            && m.name == Some(UnifiedName(d.name))
            && m.name.value != ""
            && (d.name.Some? && d.name.value != "" ==> m.name == d.name)
            && DIRECTIONAL_LIGHT in m.keywords && SPECULAR_HIGHLIGHTS in m.keywords
  {
    StageSpans(d, settings, mrtk, textures, 0, 6);
    IdentityCore(Stage(d, settings, mrtk, textures, 0), Stage(d, settings, mrtk, textures, 6));
  }

  lemma IdentityCore(s0: MaterialState, m: MaterialState)
    requires Spans(s0, m, 0, 6)
    ensures m.shader == s0.shader && m.name == s0.name
    ensures DIRECTIONAL_LIGHT in s0.keywords ==> DIRECTIONAL_LIGHT in m.keywords
    ensures SPECULAR_HIGHLIGHTS in s0.keywords ==> SPECULAR_HIGHLIGHTS in m.keywords
  {
    assert KeywordStep(DIRECTIONAL_LIGHT) == KeywordStep(SPECULAR_HIGHLIGHTS) == 0;
  }

  /** A material without `pbrMetallicRoughness` is bound as one with the glTF default block. */
  lemma MissingMetalRoughnessUsesDefaults(d: GltfMaterial, settings: ShaderSettings, mrtk: Shader, textures: Option<seq<TextureSource>>)
    requires d.pbrMetallicRoughness.None?
    ensures MetalRoughnessAsWritten(d.pbrMetallicRoughness) == Failure(NullReference)
    ensures UnifiedMaterial(d, settings, mrtk, textures)
            == UnifiedMaterial(d.(pbrMetallicRoughness := Some(DefaultMetalRoughness)), settings, mrtk, textures)
  {
    StagesUseDefaults(d, settings, mrtk, textures, 6);
  }

  lemma {:induction false} StagesUseDefaults(d: GltfMaterial, settings: ShaderSettings, mrtk: Shader, textures: Option<seq<TextureSource>>, k: nat)
    requires d.pbrMetallicRoughness.None? && k <= 6
    ensures Stage(d, settings, mrtk, textures, k) == Stage(d.(pbrMetallicRoughness := Some(DefaultMetalRoughness)), settings, mrtk, textures, k)
  {
    if k > 0 {
      StagesUseDefaults(d, settings, mrtk, textures, k - 1);
    }
  }
}
