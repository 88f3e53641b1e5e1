# GLTFMaterial: turning a glTF 2.0 material into a Unity material

`Scripts/Spec/GLTFMaterial.cs` is the part of a glTF importer for Unity that
turns a glTF material description into a Unity `Material`. It has two
branches.

- **MRTK branch.** When the shader "Graphics Tools/Standard" is found, it
  builds one material step by step:
  - the base colour;
  - the alpha-mode table;
  - emission;
  - a packed channel map, which rewrites the metallic-roughness texture into
    MRTK's layout (metal in R, occlusion in G, 0 in B, smoothness in A),
    with smoothness and metallic set alongside;
  - the normal map;
  - culling.
- **Legacy branch.** Otherwise it builds one of three base materials: a
  metallic-roughness material, else a specular-glossiness material, else a
  plain "Standard" material. It then applies the normal, occlusion, emission
  and alpha-cutoff steps common to all three, and sets the glTF name.

The `ImportTask` creates the materials of a file in order. It names the
materials whose name is null and reports progress after each one.

The end-to-end members (`CreateUnified`, `CreateLegacy`, `CreateMaterial`,
`CreateNamed`, `ImportTask.OnCoroutine`) model the corrected import: they
are built from the corrected texture lookup, base-colour fetch,
specular-glossiness slot guard, default metallic-roughness block and
occlusion choice. On the inputs listed under "## Findings" the code as
written throws out of `CreateMaterial` instead. Each fault is modelled as
written at the level of the lookup or step that throws.

The model has these modules:

| module | file | models |
|---|---|---|
| `Wrappers` | `wrappers.dfy` | `Option` for C# null, `Result` for a thrown exception |
| `Colors` | `colors.dfy` | Unity's `Color`, with real channels |
| `Textures` | `textures.dfy` | texture references; the importer's texture results; `TryGetTexture` as written and with the early returns its guards intend |
| `UnityMaterial` | `unity_material.dfy` | the part of Unity's `Material` the file uses, as a class: property sheet, keyword set, override tags, render queue, name and shader. `MaterialState` is the value of its fields |
| `Descriptor` | `descriptor.dfy` | the glTF material record, the shader settings, and what `Shader.Find` returns |
| `ChannelPack` | `channel_pack.dfy` | the packing loop over a fresh array |
| `UnifiedPath` | `unified_path.dfy` | the MRTK branch |
| `LegacyPath` | `legacy_path.dfy` | the legacy branch, with `PbrMetalRoughness.CreateMaterial` and `PbrSpecularGlossiness.CreateMaterial` |
| `MaterialImport` | `material_import.dfy` | the choice of branch (`CreateMaterial`) and `ImportTask` |

The same pattern holds for every part of the code that changes a material
step by step:

- A `Create...` or `Apply...` method on the `Material` class is the code
  itself. Its contract says that it leaves exactly the state given by a
  function, such as `UnifiedMaterial` or `LegacyMaterial`.
- Lemmas prove the file's rules about that function.

The branches are a chain of steps, `Stage(k)` and `LegacyStage(k)`. Every
property and keyword carries the number of the step that writes it. One
predicate (`Spans` / `LegacySpans`) states that the steps between two stages
touch nothing numbered outside them. The rule lemmas are built from these
facts.

Where a reader might expect otherwise, the model follows the code:

- `CreateMaterial` reads the override material only after it has found the
  MRTK shader. An override alone does not select the MRTK branch
  (`OverrideIgnoredWithoutMrtk`).
- The legacy branch tests `pbrMetallicRoughness` before
  `extensions.KHR_materials_pbrSpecularGlossiness`, so a material with both
  blocks is built from the metallic-roughness block.
- When neither block is present, the code still applies the normal,
  occlusion and emission textures and the alpha cutoff to the "Standard"
  material (`FallbackMaterial`).
- The legacy branch assigns the glTF name verbatim, an empty name included.
  Only the import task replaces a name, and only a null one, with
  `"material" + i` (`FallbackOnlyForNullLegacyName`).
- `OnCoroutine` reports progress 1 when the material list is null, and
  reports nothing when it is empty (`ImportTask.OnCoroutine`,
  `ProgressScheduleRule`).
- The class initialises `doubleSided` to `true`, so the MRTK branch switches
  culling off for a material that does not mention it.

## Model

| member | source | states |
|---|---|---|
| `Textures.TryGetTexture` | Scripts/Spec/GLTFMaterial.cs:341-357 | A reference that resolves (non-null, non-negative index, non-null collection, index in range) delivers that entry's texture in the requested colour space. Every other reference delivers null. A warning is logged exactly when the index is non-negative and past the end of a non-null collection. |
| `Textures.AsWrittenFaultsWhereGuardFires` | Scripts/Spec/GLTFMaterial.cs:341-357 | The code as written agrees with the guarded lookup exactly on resolving references. On every other input it first hands null to the callback and then throws. |
| `Textures.PastEndIndexThrows` | Scripts/Spec/GLTFMaterial.cs:350-355 | Index 7 with three textures: the guarded lookup warns and delivers null; the code as written delivers null, warns and throws `IndexOutOfRange`. |
| `Textures.NegativeIndexThrows` | Scripts/Spec/GLTFMaterial.cs:342-355 | Index -1: the guarded lookup delivers null without a warning. As written, it throws after one null with a collection, and after two nulls without one. |
| `ChannelPack.PackChannels` | Scripts/Spec/GLTFMaterial.cs:170-183 | The pixel cache is as long as the metallic-roughness pixels. At every texel, R is the glTF metal (B), G is the occlusion R or 1 without occlusion pixels, B is 0, and A is 1 − roughness (G). |
| `ChannelPack.PackedKeepsMetalRoughness` | Scripts/Spec/GLTFMaterial.cs:172-183 | Packing loses neither metalness nor roughness: reading R and 1 − A back from every packed texel gives the glTF B and G. |
| `ChannelPack.RepackedSharedTexture` | Scripts/Spec/GLTFMaterial.cs:160-187 | Packing the already-packed pixels of a shared texture a second time, as the in-place `SetPixels` leads to, reads back as metalness 0 and, as roughness, the occlusion of the first packing, whatever the original texels were. |
| `ChannelPack.RepackLosesMetalRoughness` | Scripts/Spec/GLTFMaterial.cs:172-187 | A texel with metal 0.75 and roughness 0.25 is read back correctly after one packing, and as metal 0 and roughness 1 after a second, so the second material differs from the glTF values. |
| `ChannelPack.PackedStaysInUnitRange` | Scripts/Spec/GLTFMaterial.cs:172-183 | Unit-range input texels and occlusion texels give unit-range packed texels. |
| `ChannelPack.OcclusionPixels` | Scripts/Spec/GLTFMaterial.cs:161-166 | Occlusion pixels are used exactly when the occlusion texture is readable and has at least as many texels as the metallic-roughness texture. They are then that texture's pixels. |
| `ChannelPack.OcclusionPixelsCover` | Scripts/Spec/GLTFMaterial.cs:161-183 | The corrected packer never throws. Wherever the loop as written does not throw, the two give the same texels. The loop as written throws exactly when readable occlusion pixels are fewer than the metallic-roughness pixels. |
| `ChannelPack.SmallOcclusionThrows` | Scripts/Spec/GLTFMaterial.cs:172-178 | Four metallic-roughness texels with one readable occlusion texel: the loop as written throws; the corrected packer uses no occlusion. |
| `UnifiedPath.MetalRoughnessOrDefault` | Scripts/Spec/GLTFMaterial.cs:87-135 | A material without `pbrMetallicRoughness` is read with the glTF default block. The code as written throws there. |
| `UnifiedPath.MissingMetalRoughnessUsesDefaults` | Scripts/Spec/GLTFMaterial.cs:87-205 | A material without the block gives the same MRTK material as one with the default block written out. As written, the block is dereferenced and throws. |
| `UnifiedPath.BaseColorFetch` | Scripts/Spec/GLTFMaterial.cs:87-100 | The base-colour texture is fetched only for a resolving reference. Wherever the unchecked fetch as written does not throw, the two agree. |
| `UnifiedPath.BaseColorPastEndThrows` | Scripts/Spec/GLTFMaterial.cs:87-89 | A base-colour index past the end, or a null texture collection, throws as written. The guarded fetch delivers nothing and warns. |
| `UnifiedPath.ApplyBaseColor` | Scripts/Spec/GLTFMaterial.cs:87-102 | Sets the main texture when one is fetched, then always sets the base colour. |
| `UnifiedPath.ApplyAlphaMode` | Scripts/Spec/GLTFMaterial.cs:104-127 | Writes the MASK row or the BLEND row of the alpha table. For OPAQUE it changes nothing. |
| `UnifiedPath.ApplyEmission` | Scripts/Spec/GLTFMaterial.cs:129-133 | Turns `_EMISSION` on and sets the emissive colour only when the emissive index is non-negative and the shader has `_EmissionMap`. |
| `UnifiedPath.ApplyChannelMap` | Scripts/Spec/GLTFMaterial.cs:135-205 | Fetches the occlusion texture and then the metallic-roughness texture, and packs and binds the channel map. Its contract ties the new state to the channel-map step, whose rules are `UnifiedChannelMapRule` and `UnifiedSmoothnessRule`. |
| `UnifiedPath.ApplyNormal` | Scripts/Spec/GLTFMaterial.cs:207-222 | Binds the normal map and its scale and turns on `_NORMAL_MAP` when a normal texture is fetched. |
| `UnifiedPath.CreateUnified` | Scripts/Spec/GLTFMaterial.cs:67-230 | The MRTK branch returns a new material whose state is exactly `UnifiedMaterial`, the six steps applied in the order of the code. |
| `UnifiedPath.UnifiedAlphaTable` | Scripts/Spec/GLTFMaterial.cs:104-127 | In the finished material, MASK gives One/Zero, ZWrite 1, mode 3, "Cutout", alpha test on, blend and premultiply off, queue 2450. BLEND gives One/OneMinusSrcAlpha, ZWrite 0, mode 3, "Transparency", premultiply on, the other two off, queue 3000. OPAQUE leaves all of these as the created material had them. |
| `UnifiedPath.AlphaStepRows` | Scripts/Spec/GLTFMaterial.cs:104-127 | The alpha step alone writes the table's row for MASK and BLEND and is the identity for OPAQUE. |
| `UnifiedPath.UnifiedEmissionRule` | Scripts/Spec/GLTFMaterial.cs:129-133 | `_EMISSION` is on in the result iff the emissive index is non-negative and the shader has `_EmissionMap`, or the created material already had it on. The emissive colour is set exactly in the first case. The emission map is never bound on this branch. |
| `UnifiedPath.UnifiedChannelMapRule` | Scripts/Spec/GLTFMaterial.cs:135-205 | With a non-negative metallic-roughness index and a readable fetched texture, the result holds the packed channel map with `_CHANNEL_MAP` on. With an unreadable one, `_CHANNEL_MAP` is off and the channel map stays as created. With no texture, both stay as created. |
| `UnifiedPath.PackedTextureLayout` | Scripts/Spec/GLTFMaterial.cs:160-187 | The bound channel map is as long as the metallic-roughness texture, with metal, occlusion (or 1), 0 and 1 − roughness in R, G, B and A at every texel. |
| `UnifiedPath.UnifiedSmoothnessRule` | Scripts/Spec/GLTFMaterial.cs:135-204 | With a non-negative metallic-roughness index, smoothness is abs(roughness − 1) (never negative) and metallic is the metallic factor. Otherwise both stay as created. |
| `UnifiedPath.UnifiedCullRule` | Scripts/Spec/GLTFMaterial.cs:224-227 | The cull mode is Off exactly for a double-sided material. Otherwise it stays as created. |
| `UnifiedPath.UnifiedNormalRule` | Scripts/Spec/GLTFMaterial.cs:207-222 | When a normal texture with a non-negative index is fetched, the normal map, its scale and `_NORMAL_MAP` are set. Otherwise all three stay as created. |
| `UnifiedPath.UnifiedBaseColorRule` | Scripts/Spec/GLTFMaterial.cs:87-102 | The base colour is always the glTF factor. The main texture is the fetched base-colour texture when one is delivered, and otherwise stays as created. |
| `UnifiedPath.UnifiedIdentity` | Scripts/Spec/GLTFMaterial.cs:67-86 | The shader is the override material's when one is configured, and MRTK's otherwise. The name is never empty: it is the glTF name when that is non-empty, and "glTF Material " otherwise. `_DIRECTIONAL_LIGHT` and `_SPECULAR_HIGHLIGHTS` are on. |
| `LegacyPath.GuardedSlot` | Scripts/Spec/GLTFMaterial.cs:386-405 | A slot names an entry iff the reference resolves, and then names its index. It warns exactly where `TryGetTexture` would. |
| `LegacyPath.SpecGlossSlotAgreesExceptNegative` | Scripts/Spec/GLTFMaterial.cs:454-475 | The specular-glossiness guard as written agrees with the guarded slot wherever it does not throw. It throws exactly on a negative index. |
| `LegacyPath.SpecGlossNegativeIndexThrows` | Scripts/Spec/GLTFMaterial.cs:454-458 | A diffuse index of -1 throws as written. The guarded slot is no texture. |
| `LegacyPath.SlotTextureIsLookup` | Scripts/Spec/GLTFMaterial.cs:386-399 | A guarded slot delivers the texture the guarded `TryGetTexture` would. |
| `LegacyPath.ApplyMetalRoughTextures` | Scripts/Spec/GLTFMaterial.cs:384-418 | Binds the base-colour texture and the metallic-gloss map, with its keyword, as `MetalRoughRule` spells out. |
| `LegacyPath.ApplyBaseMap` | Scripts/Spec/GLTFMaterial.cs:420-422 | Mirrors the main texture and base colour into `_BaseMap` and `_BaseColor` on shaders that have them. |
| `LegacyPath.CreateMetalRough` | Scripts/Spec/GLTFMaterial.cs:371-424 | Returns a new material whose state is exactly `MetalRoughMaterial`. |
| `LegacyPath.MetalRoughRule` | Scripts/Spec/GLTFMaterial.cs:371-424 | The blend variant exactly for BLEND. The three factors are set. The main texture and the metallic-gloss map are bound exactly when their references resolve and a texture is delivered, and `_METALLICGLOSSMAP` is on exactly with the map. `_BaseMap` and `_BaseColor` are mirrored on shaders that have them. Nothing else is set. |
| `LegacyPath.CreateSpecGloss` | Scripts/Spec/GLTFMaterial.cs:439-489 | Returns a new material whose state is exactly `SpecGlossMaterial`, with the index guard of the metallic-roughness slots. |
| `LegacyPath.SpecGlossRule` | Scripts/Spec/GLTFMaterial.cs:439-489 | The blend variant exactly for BLEND. The three factors are set. The diffuse texture is the main texture when delivered. `_SPECGLOSSMAP` is on exactly when the specular-glossiness reference resolves, even if no texture is delivered. Nothing else is set. |
| `LegacyPath.ApplyLegacyNormal` | Scripts/Spec/GLTFMaterial.cs:261-281 | Sets the bump map, `_NORMALMAP` and the bump scale when a normal texture is delivered. |
| `LegacyPath.ApplyLegacyOcclusion` | Scripts/Spec/GLTFMaterial.cs:283-301 | Sets the occlusion map when an occlusion texture is delivered. |
| `LegacyPath.ApplyLegacyEmission` | Scripts/Spec/GLTFMaterial.cs:303-329 | Applies the emissive-factor step and then the emissive-texture step. |
| `LegacyPath.CreateLegacy` | Scripts/Spec/GLTFMaterial.cs:232-338 | The legacy branch returns a new material whose state is exactly `LegacyMaterial`. |
| `LegacyPath.LegacyBaseShape` | Scripts/Spec/GLTFMaterial.cs:234-258 | The base material has its precedence's shader, no tags and the shader's queue. It holds only its own workflow's properties and keywords. Without either block it is a bare "Standard" material. |
| `LegacyPath.LegacyShaderPrecedence` | Scripts/Spec/GLTFMaterial.cs:234-258 | Metallic-roughness wins over specular-glossiness, which wins over "Standard". The blend variant is chosen exactly for BLEND. The branch never sets tags or the render queue. |
| `LegacyPath.LegacyEmissionRule` | Scripts/Spec/GLTFMaterial.cs:303-329 | `_EMISSION` is on iff the emissive factor is not black or an emissive texture is delivered. The emission colour and the emission map are set exactly in those respective cases. |
| `LegacyPath.LegacyNormalRule` | Scripts/Spec/GLTFMaterial.cs:261-281 | The bump map, the bump scale and `_NORMALMAP` are all present iff a normal texture is delivered. |
| `LegacyPath.LegacyOcclusionRule` | Scripts/Spec/GLTFMaterial.cs:283-301 | The occlusion map is present iff an occlusion texture is delivered. |
| `LegacyPath.LegacyAlphaCutoffRule` | Scripts/Spec/GLTFMaterial.cs:331-334 | `_AlphaCutoff` is the glTF cutoff for MASK and absent otherwise. |
| `LegacyPath.LegacyNameRule` | Scripts/Spec/GLTFMaterial.cs:336 | The material carries the glTF name verbatim, null and empty included. |
| `LegacyPath.LegacyWorkflowsExclusive` | Scripts/Spec/GLTFMaterial.cs:234-258 | A metallic-roughness material has none of the specular-glossiness properties or keyword. A specular-glossiness material has none of the metallic-roughness ones. |
| `LegacyPath.FallbackMaterial` | Scripts/Spec/GLTFMaterial.cs:255-334 | Without either block, the material is a "Standard" material. It holds only what the normal, occlusion, emission and cutoff steps add, with at most `_NORMALMAP` and `_EMISSION` on. |
| `MaterialImport.CreateMaterial` | Scripts/Spec/GLTFMaterial.cs:59-338 | Takes the MRTK branch exactly when its shader is found, and returns a new material in the state that branch defines. |
| `MaterialImport.OverrideIgnoredWithoutMrtk` | Scripts/Spec/GLTFMaterial.cs:65-83 | Without the MRTK shader, the override material has no effect on the result. |
| `MaterialImport.NameOnlyLegacyMaterial` | Scripts/Spec/GLTFMaterial.cs:232-338 | A material that gives only a name becomes, on the legacy branch, a bare "Standard" material with that name. |
| `MaterialImport.NatToString` | Scripts/Spec/GLTFMaterial.cs:546 | The decimal form of `i`: at least one character, all of them digits, and exactly one for `i < 10`. |
| `MaterialImport.NatToStringInjective` | Scripts/Spec/GLTFMaterial.cs:546 | Different numbers have different decimal forms. |
| `MaterialImport.FallbackNameInjective` | Scripts/Spec/GLTFMaterial.cs:546 | The names `"material" + i` given at different positions differ. |
| `MaterialImport.NamedAfterImportRule` | Scripts/Spec/GLTFMaterial.cs:546 | Renaming replaces only a null name and changes nothing else. Afterwards every material has a name. |
| `MaterialImport.FallbackOnlyForNullLegacyName` | Scripts/Spec/GLTFMaterial.cs:546 | The import task's name is used exactly for a null glTF name on the legacy branch. The legacy branch otherwise keeps the glTF name, and the MRTK branch names every material itself. |
| `MaterialImport.CreateNamed` | Scripts/Spec/GLTFMaterial.cs:541-546 | Returns a new material for position `i`, created and then named if its name is null. |
| `MaterialImport.ProgressSchedule` | Scripts/Spec/GLTFMaterial.cs:547 | One report per material, `(k + 1) / n` after the material at position `k`. |
| `MaterialImport.ProgressScheduleRule` | Scripts/Spec/GLTFMaterial.cs:540-547 | Progress lies in (0, 1], rises strictly, and ends at exactly 1 when there is a material. An empty list reports nothing. |
| `MaterialImport.ImportTask.constructor` | Scripts/Spec/GLTFMaterial.cs:521-530 | `Result` has one empty slot per material, and stays null without a list. |
| `MaterialImport.ImportTask.OnCoroutine` | Scripts/Spec/GLTFMaterial.cs:532-551 | Without a list: one report of 1, then done. Otherwise: every slot holds its own new material, distinct from the others, in the state `CreateMaterial` and the renaming give the material at that position. The reports are the progress schedule in order, and the import task ends completed. |

## Left out

- Unity's engine calls are a property map, a keyword set, tags and a queue
  held by the `Material` class. This covers `SetInt`, `SetFloat`, `SetColor`,
  `SetTexture` and `EnableKeyword`. `Shader.Find` is an input: `Runtime`,
  which may lack the MRTK shader. `HasProperty` is a shader's declared
  property set. `globalIlluminationFlags` (line 229) is not modelled, because
  it is write-only engine state that no rule reads.
- `GLTFTexture.ImportResult.GetTextureCached` is not part of this model: an
  entry is a pair of optional images, one per colour space. Texture
  decoding, caching and its `onProgress` callback are left out.
- `TextureInfo.Extensions.Apply` and `KHR_texture_transform` (lines 271-274,
  291-294, 319-322, 393-395, 410-412, 461-463, 479-481, 502-508) are not
  modelled. They call code that is not part of this model, after the
  texture has been bound.
- `tex.SetPixels` and `tex.Apply()` (lines 186-187) rewrite the cached
  metallic-roughness texture in place. The model binds a copy of the image,
  with the same identity and the packed pixels. It does not capture that
  other materials sharing the cached texture see the packed pixels. The
  second packing of a shared texture is stated on values by
  `RepackedSharedTexture` (see "## Findings").
- Coroutine suspension (`yield return null`, `MoveNext`) and the `Task` of
  the `ImportTask` constructor are sequential steps in the model. Callbacks
  run where the code waits for them.
- `Debug.LogWarning` is a `warned` flag of the lookup. The text of the
  message is not modelled.
- Colour channels and factors are reals. Single-precision rounding, and the
  float division of the progress value, are not modelled.
- The JSON converters, attributes and the `extras` object are parsing
  concerns, outside this model.
- `ImportTask.OnCoroutine`: progress values are recorded even when no
  `onProgress` callback is given. The code then simply makes no call.
  `Result[i]` holds the material itself rather than an `ImportResult`
  wrapping it.
- `UnifiedPath.CreateUnified`: composes the corrected lookups (see
  "## Findings"); on the Findings inputs the code as written throws instead
  of returning a material.
- `LegacyPath.CreateLegacy`: composes the corrected lookups; on the Findings
  inputs the code as written throws instead of returning a material.
- `MaterialImport.CreateMaterial`: composes the corrected branches; on the
  Findings inputs the code as written throws instead of returning a
  material.
- `MaterialImport.CreateNamed`: composes the corrected `CreateMaterial`; on
  the Findings inputs the code as written throws before naming.
- `MaterialImport.ImportTask.OnCoroutine`: composes the corrected
  `CreateMaterial`. As written, a throw on a Findings input ends the
  coroutine with the later slots null and the task never marked completed;
  the model fills every slot and completes.
- `LegacyPath.EmissiveFactorStep`, `LegacyPath.LegacyEmissionRule`: the test
  `emissiveFactor != Color.black` is exact here. Unity's colour `!=` treats
  colours whose squared distance is below 1e-10 as equal, so a factor within
  about 1e-5 of black is black to the code and not black to the model.
- `LegacyPath.ApplyBaseMap`: `material.color` and `material.mainTexture` are
  taken to be `_Color` and `_MainTex`. Unity resolves them through the
  shader's `[MainColor]` and `[MainTexture]` properties, which the model does
  not represent.
- `Textures.TryGetTexture`: the `onProgress(1f)` calls of its guards are not
  modelled.

## Findings

| source | as written | input that shows it | evidently intended | confidence | as-written member | corrected member |
|---|---|---|---|---|---|---|
| Scripts/Spec/GLTFMaterial.cs:341-357 | Each guard of `TryGetTexture` calls `onFinish(null)` but none returns, so `textures[texture.index]` runs anyway. | Index 7 with three textures: warning, null delivered, then `IndexOutOfRange`. Index -1: null delivered, then a throw. | Each guard ends the lookup after delivering null once. | not executed | `Textures.AsWrittenFaultsWhereGuardFires` | `Textures.TryGetTexture` |
| Scripts/Spec/GLTFMaterial.cs:87-89 | The MRTK base-colour fetch indexes `textures` with no null or range check. | A base-colour index of 1 with one texture; any base-colour index with a null collection. | The same guarded lookup as every other fetch. | not executed | `UnifiedPath.BaseColorPastEndThrows` | `UnifiedPath.BaseColorFetch` |
| Scripts/Spec/GLTFMaterial.cs:454-475 | The specular-glossiness slots test only `Length <= index`, so a negative index reaches `textures[index]`. | A diffuse texture with index -1. | The `index >= 0` test of the metallic-roughness slots (lines 386, 402). | not executed | `LegacyPath.SpecGlossSlotAgreesExceptNegative` | `LegacyPath.GuardedSlot` |
| Scripts/Spec/GLTFMaterial.cs:87-135 | The MRTK branch dereferences `pbrMetallicRoughness`, which glTF 2.0 allows to be absent. | A material without `pbrMetallicRoughness`, such as one giving only a name, when the MRTK shader is found. | The glTF default block: white base colour, metallic 1, roughness 1, no textures. | not executed | `UnifiedPath.MissingMetalRoughnessUsesDefaults` | `UnifiedPath.MetalRoughnessOrDefault` |
| Scripts/Spec/GLTFMaterial.cs:160-187 | The packing loop writes the channel map back into the cached metallic-roughness texture with `SetPixels`, so a second material sharing that texture packs already-packed texels. | Two materials without occlusion share a metallic-roughness texture whose texel has metal 0.75 and roughness 0.25: the second reads metal 0 and roughness 1. | Pack into a texture of the material's own, leaving the cached texture as imported. | not executed | `ChannelPack.RepackLosesMetalRoughness` | `ChannelPack.PackedKeepsMetalRoughness` |
| Scripts/Spec/GLTFMaterial.cs:172-178 | The packing loop reads `occlusionPixels[c]` for every metallic-roughness texel, whatever the occlusion texture's size. | A 4-texel metallic-roughness texture with a readable 1-texel occlusion texture. | Occlusion only from a texture that covers every texel, and 1 otherwise. | not executed | `ChannelPack.SmallOcclusionThrows` | `ChannelPack.OcclusionPixelsCover` |
