/**
 * Texture references of a glTF material and `GLTFMaterial.TryGetTexture`,
 * the guarded lookup of a texture by index in the importer's texture results.
 *
 * Texture decoding and caching are not part of this model: an entry of the
 * texture results is a `TextureSource` that yields, per colour space, the
 * image `GetTextureCached` would hand to its callback (or null).
 */
module Textures {
  import opened Wrappers
  import opened Colors

  /** A decoded texture: an identity, whether the CPU may read its pixels, and the pixels. */
  datatype Image = Image(id: nat, readable: bool, pixels: seq<Color>)

  /** One entry of `GLTFTexture.ImportResult[]`. */
  datatype TextureSource = TextureSource(linearTexture: Option<Image>, srgbTexture: Option<Image>)
  {
    /** What `GetTextureCached(linear, onFinish)` delivers to `onFinish`. */
    function GetTextureCached(linear: bool): Option<Image> {
      if linear then linearTexture else srgbTexture
    }
  }

  /** `GLTFMaterial.TextureInfo`: `index` is required by the glTF schema but may be any int. */
  datatype TextureInfo = TextureInfo(index: int, texCoord: int, scale: real)

  /** The exceptions the C# runtime throws on the paths the model follows. */
  datatype Fault = NullReference | IndexOutOfRange

  /** The outcome of a texture fetch: the texture handed to `onFinish`, and whether a warning was logged. */
  datatype Lookup = Lookup(texture: Option<Image>, warned: bool)

  /** True when `info` names an entry of `textures` (non-null reference, non-null collection, index in range). */
  predicate Resolves(textures: Option<seq<TextureSource>>, info: Option<TextureInfo>) {
    info.Some? && textures.Some? && 0 <= info.value.index < |textures.value|
  }

  /** Whether `t?.index >= 0` holds (a null-conditional on a null reference compares false). */
  predicate HasIndex(t: Option<TextureInfo>) {
    t.Some? && t.value.index >= 0
  }

  /**
   * `TryGetTexture` with the early returns its guards evidently intend: a null
   * reference, a negative index, a null collection or an index past the end
   * hands null to the callback exactly once, and only the last of these logs
   * a warning.
   */
  function TryGetTexture(textures: Option<seq<TextureSource>>, info: Option<TextureInfo>, linear: bool): (r: Lookup)
    ensures Resolves(textures, info) ==>
              r == Lookup(textures.value[info.value.index].GetTextureCached(linear), false)
    ensures !Resolves(textures, info) ==> r.texture.None?
    ensures r.warned <==> info.Some? && textures.Some? && 0 <= info.value.index && |textures.value| <= info.value.index
  {
    if info.None? || info.value.index < 0 then Lookup(None, false)
    else if textures.None? then Lookup(None, false)
    else if |textures.value| <= info.value.index then Lookup(None, true)
    else Lookup(textures.value[info.value.index].GetTextureCached(linear), false)
  }

  /**
   * What `TryGetTexture` does as written: every guard calls `onFinish(null)`
   * but none returns, so control reaches `textures[texture.index]` whatever
   * the guards found. `delivered` lists the values handed to `onFinish`, in
   * order; `fault` is the exception that ends the fetch, if any.
   */
  datatype Trace = Trace(delivered: seq<Option<Image>>, warned: bool, fault: Option<Fault>)

  function TryGetTextureAsWritten(textures: Option<seq<TextureSource>>, info: Option<TextureInfo>, linear: bool): Trace
  {
    var first := if info.None? || info.value.index < 0 then [None] else [];
    var second := first + (if textures.None? then [None] else []);
    // `textures.Length <= texture.index` reads `textures` first, then `texture`.
    if textures.None? || info.None? then Trace(second, false, Some(NullReference))
    else
      var index := info.value.index;
      var pastEnd := |textures.value| <= index;
      var third := second + (if pastEnd then [None] else []);
      if index < 0 || pastEnd then Trace(third, pastEnd, Some(IndexOutOfRange))
      else Trace(third + [textures.value[index].GetTextureCached(linear)], false, None)
  }

  /**
   * The two agree exactly when the reference resolves; on every input whose
   * guard fires, the code as written throws after having handed null to the
   * callback at least once.
   */
  lemma AsWrittenFaultsWhereGuardFires(textures: Option<seq<TextureSource>>, info: Option<TextureInfo>, linear: bool)
    ensures var t := TryGetTextureAsWritten(textures, info, linear);
            var l := TryGetTexture(textures, info, linear);
            && (Resolves(textures, info) ==> t == Trace([l.texture], l.warned, None))
            && (!Resolves(textures, info) ==> t.fault.Some? && |t.delivered| >= 1 && t.delivered[0].None?)
            && (t.fault.None? <==> Resolves(textures, info))
  {
  }

  /** Index 7 against three textures: the corrected lookup warns and yields null; the code as written throws. */
  lemma PastEndIndexThrows(source: TextureSource)
    ensures var textures := Some([source, source, source]);
            var info := Some(TextureInfo(7, 0, 1.0));
            && TryGetTexture(textures, info, true) == Lookup(None, true)
            && TryGetTextureAsWritten(textures, info, true) == Trace([None], true, Some(IndexOutOfRange))
  {
  }

  /** Index -1: handed null twice when the collection is null, and a throw either way. */
  lemma NegativeIndexThrows(source: TextureSource)
    ensures var info := Some(TextureInfo(-1, 0, 1.0));
            && TryGetTexture(Some([source]), info, false) == Lookup(None, false)
            && TryGetTextureAsWritten(Some([source]), info, false) == Trace([None], false, Some(IndexOutOfRange))
            && TryGetTextureAsWritten(None, info, false) == Trace([None, None], false, Some(NullReference))
  {
  }
}
