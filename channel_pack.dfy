/**
 * The channel packer of the MRTK path of `GLTFMaterial.CreateMaterial`.
 *
 * A glTF metallic-roughness texture keeps metalness in B and roughness in G
 * (glTF 2.0, section 3.9.2); the MRTK standard shader reads one channel map
 * with metal in R, occlusion in G, emission in B and smoothness in A. The
 * packer rewrites every texel into that layout.
 */
module ChannelPack {
  import opened Wrappers
  import opened Colors
  import opened Textures

  /** The occlusion value packed at texel `c`: `occlusionPixels?[c].r ?? 1.0f`. */
  function OcclusionAt(occlusionPixels: Option<seq<Color>>, c: nat): real
    requires occlusionPixels.Some? ==> c < |occlusionPixels.value|
  {
    if occlusionPixels.Some? then occlusionPixels.value[c].r else 1.0
  }

  /** The channel-map texel for metallic-roughness texel `px` with occlusion value `occlusion`. */
  function PackedTexel(px: Color, occlusion: real): Color {
    Color(px.b, occlusion, 0.0, 1.0 - px.g)
  }

  /** Whether the occlusion pixels, if any, cover every metallic-roughness texel. */
  predicate Covers(pixels: seq<Color>, occlusionPixels: Option<seq<Color>>) {
    occlusionPixels.Some? ==> |pixels| <= |occlusionPixels.value|
  }

  /** The packed image, texel by texel. */
  function Packed(pixels: seq<Color>, occlusionPixels: Option<seq<Color>>): seq<Color>
    requires Covers(pixels, occlusionPixels)
  {
    seq(|pixels|, c requires 0 <= c < |pixels| => PackedTexel(pixels[c], OcclusionAt(occlusionPixels, c)))
  }

  /**
   * The packing loop: a fresh pixel cache of the same length, filled index by
   * index. The loop reads `occlusionPixels[c]` for every texel, so the
   * occlusion pixels must cover the metallic-roughness pixels.
   */
  method PackChannels(pixels: seq<Color>, occlusionPixels: Option<seq<Color>>) returns (pixelCache: array<Color>)
    requires Covers(pixels, occlusionPixels)
    ensures pixelCache.Length == |pixels|
    ensures forall c :: 0 <= c < |pixels| ==>
              && pixelCache[c].r == pixels[c].b
              && pixelCache[c].g == (if occlusionPixels.Some? then occlusionPixels.value[c].r else 1.0)
              && pixelCache[c].b == 0.0
              && pixelCache[c].a == 1.0 - pixels[c].g
    ensures pixelCache[..] == Packed(pixels, occlusionPixels)
  {
    pixelCache := new Color[|pixels|](_ => Cleared);
    for c := 0 to |pixels|
      invariant forall k :: 0 <= k < c ==> pixelCache[k] == PackedTexel(pixels[k], OcclusionAt(occlusionPixels, k))
    {
      var metal := pixels[c].b;
      var occlusion := if occlusionPixels.Some? then occlusionPixels.value[c].r else 1.0;
      var smoothness := 1.0 - pixels[c].g;
      pixelCache[c] := Color(metal, occlusion, 0.0, smoothness);
    }
  }

  /** Reads metalness and roughness back from a glTF metallic-roughness texel. */
  function MetalRoughness(px: Color): (real, real) {
    (px.b, px.g)
  }

  /** Reads metalness and roughness back from an MRTK channel-map texel (roughness is 1 - smoothness). */
  function FromChannelMap(packed: Color): (real, real) {
    (packed.r, 1.0 - packed.a)
  }

  /** Packing loses neither metalness nor roughness: reading the channel map back gives the glTF values. */
  lemma {:induction false} PackedKeepsMetalRoughness(pixels: seq<Color>, occlusionPixels: Option<seq<Color>>)
    requires Covers(pixels, occlusionPixels)
    ensures var packed := Packed(pixels, occlusionPixels);
            |packed| == |pixels| &&
            forall c :: 0 <= c < |pixels| ==> FromChannelMap(packed[c]) == MetalRoughness(pixels[c])
  {
    var packed := Packed(pixels, occlusionPixels);
    forall c | 0 <= c < |pixels|
      ensures FromChannelMap(packed[c]) == MetalRoughness(pixels[c])
    {
      assert packed[c] == PackedTexel(pixels[c], OcclusionAt(occlusionPixels, c));
      assert 1.0 - (1.0 - pixels[c].g) == pixels[c].g;
    }
  }

  /**
   * The code as written packs the cached metallic-roughness texture in place,
   * so a second material sharing it packs the channel map once more. Read
   * back, every texel then has metalness 0 and the first packing's occlusion
   * as its roughness.
   */
  lemma RepackedSharedTexture(pixels: seq<Color>, first: Option<seq<Color>>, second: Option<seq<Color>>)
    requires Covers(pixels, first) && Covers(pixels, second)
    ensures Covers(Packed(pixels, first), second)
    ensures var twice := Packed(Packed(pixels, first), second);
            |twice| == |pixels| &&
            forall c :: 0 <= c < |pixels| ==> FromChannelMap(twice[c]) == (0.0, OcclusionAt(first, c))
  {
  }

  /** A metal texel with roughness 0.25 is read back by the second material as non-metal with roughness 1. */
  lemma RepackLosesMetalRoughness(px: Color)
    requires px == Color(0.0, 0.25, 0.75, 1.0)
    ensures FromChannelMap(PackedTexel(px, 1.0)) == MetalRoughness(px)
    ensures FromChannelMap(PackedTexel(PackedTexel(px, 1.0), 1.0)).0 == 0.0
    ensures FromChannelMap(PackedTexel(PackedTexel(px, 1.0), 1.0)).1 == 1.0
    ensures FromChannelMap(PackedTexel(PackedTexel(px, 1.0), 1.0)) != MetalRoughness(px)
  {
  }

  /** Unit-range input texels (and occlusion) give unit-range channel-map texels. */
  lemma PackedStaysInUnitRange(pixels: seq<Color>, occlusionPixels: Option<seq<Color>>)
    requires Covers(pixels, occlusionPixels)
    requires forall c :: 0 <= c < |pixels| ==> IsUnitColor(pixels[c])
    requires occlusionPixels.Some? ==> forall c :: 0 <= c < |occlusionPixels.value| ==> IsUnitColor(occlusionPixels.value[c])
    ensures forall c :: 0 <= c < |pixels| ==> IsUnitColor(Packed(pixels, occlusionPixels)[c])
  {
  }

  /**
   * The loop as written indexes the occlusion pixels by the metallic-roughness
   * index, so occlusion pixels fewer than the metallic-roughness pixels end
   * the material with an exception.
   */
  function PackAsWritten(pixels: seq<Color>, occlusionPixels: Option<seq<Color>>): Result<seq<Color>, Fault>
  {
    if Covers(pixels, occlusionPixels) then Success(Packed(pixels, occlusionPixels))
    else Failure(IndexOutOfRange)
  }

  /** `occlusionPixels` of lines 161-166: the pixels of a readable occlusion texture, and null otherwise. */
  function ReadablePixels(occlusion: Option<Image>): Option<seq<Color>> {
    if occlusion.Some? && occlusion.value.readable then Some(occlusion.value.pixels) else None
  }

  /**
   * The occlusion pixels the corrected packer is given: those of a readable
   * occlusion texture with at least as many texels as the metallic-roughness
   * texture, and none otherwise (the texels then get occlusion 1).
   */
  function OcclusionPixels(occlusion: Option<Image>, count: nat): (r: Option<seq<Color>>)
    ensures r.Some? <==> ReadablePixels(occlusion).Some? && count <= |ReadablePixels(occlusion).value|
    ensures r.Some? ==> r == ReadablePixels(occlusion)
  {
    var readable := ReadablePixels(occlusion);
    if readable.Some? && count <= |readable.value| then readable else None
  }

  /** A 4-texel metallic-roughness texture with a readable 1-texel occlusion texture throws as written. */
  lemma SmallOcclusionThrows(px: Color, occ: Color)
    ensures PackAsWritten([px, px, px, px], Some([occ])) == Failure(IndexOutOfRange)
    ensures PackAsWritten([px, px, px, px], ReadablePixels(Some(Image(1, true, [occ])))) == Failure(IndexOutOfRange)
    ensures OcclusionPixels(Some(Image(1, true, [occ])), 4).None?
  {
  }

  /**
   * The corrected packer never throws, and wherever the code as written does
   * not throw the two produce the same texels.
   */
  lemma OcclusionPixelsCover(occlusion: Option<Image>, pixels: seq<Color>)
    ensures Covers(pixels, OcclusionPixels(occlusion, |pixels|))
    ensures PackAsWritten(pixels, OcclusionPixels(occlusion, |pixels|)).Success?
    ensures PackAsWritten(pixels, ReadablePixels(occlusion)).Success? ==>
              PackAsWritten(pixels, ReadablePixels(occlusion)).value == Packed(pixels, OcclusionPixels(occlusion, |pixels|))
    ensures PackAsWritten(pixels, ReadablePixels(occlusion)).Failure? <==>
              ReadablePixels(occlusion).Some? && |ReadablePixels(occlusion).value| < |pixels|
  {
  }
}
