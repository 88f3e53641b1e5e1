/**
 * `GLTFMaterial.CreateMaterial`, which picks the MRTK or the legacy branch,
 * and `GLTFMaterial.ImportTask`, which creates the materials of a glTF file
 * one after the other, names the unnamed ones and reports progress.
 */
module MaterialImport {
  import opened Wrappers
  import opened Textures
  import opened UnityMaterial
  import opened Descriptor
  import opened UnifiedPath
  import opened LegacyPath

  // ---- Choosing the branch, lines 59-67 ----

  /** The MRTK branch when "Graphics Tools/Standard" is found, the legacy branch otherwise. */
  function ResolvedMaterial(d: GltfMaterial, textures: Option<seq<TextureSource>>, settings: ShaderSettings, runtime: Runtime): MaterialState {
    if runtime.graphicsToolsStandard.Some? then UnifiedMaterial(d, settings, runtime.graphicsToolsStandard.value, textures)
    else LegacyMaterial(d, textures, settings, runtime.standard)
  }

  /** `GLTFMaterial.CreateMaterial`: the material handed to `onFinish`. */
  method CreateMaterial(d: GltfMaterial, textures: Option<seq<TextureSource>>, settings: ShaderSettings, runtime: Runtime)
    returns (mat: Material)
    ensures fresh(mat)
    ensures mat.State() == ResolvedMaterial(d, textures, settings, runtime)
  {
    if runtime.graphicsToolsStandard.Some? {
      mat := CreateUnified(d, textures, settings, runtime.graphicsToolsStandard.value);
    } else {
      mat := CreateLegacy(d, textures, settings, runtime.standard);
    }
  }

  /** The override material only matters when the MRTK shader is found: the legacy branch never looks at it. */
  lemma OverrideIgnoredWithoutMrtk(d: GltfMaterial, textures: Option<seq<TextureSource>>, settings: ShaderSettings, runtime: Runtime, other: Option<MaterialState>)
    requires runtime.graphicsToolsStandard.None?
    ensures ResolvedMaterial(d, textures, settings, runtime) == ResolvedMaterial(d, textures, settings.(overrideMaterial := other), runtime)
  {
    var s2 := settings.(overrideMaterial := other);
    assert MetalRoughShader(d.alphaMode, settings) == MetalRoughShader(d.alphaMode, s2);
    assert SpecGlossShader(d.alphaMode, settings) == SpecGlossShader(d.alphaMode, s2);
    assert LegacyBase(d, textures, settings, runtime.standard) == LegacyBase(d, textures, s2, runtime.standard);
    LegacyStagesFromBase(d, textures, settings, s2, runtime.standard, 4);
  }

  /**
   * A material whose JSON gives only a name becomes, on the legacy branch, a
   * bare "Standard" material carrying that name.
   */
  lemma NameOnlyLegacyMaterial(name: Option<string>, textures: Option<seq<TextureSource>>, settings: ShaderSettings, runtime: Runtime)
    requires runtime.graphicsToolsStandard.None?
    ensures ResolvedMaterial(Unspecified(name), textures, settings, runtime) == NewMaterial(runtime.standard).WithName(name)
  {
    var d := Unspecified(name);
    assert LegacyStage(d, textures, settings, runtime.standard, 0) == NewMaterial(runtime.standard);
    assert LegacyStage(d, textures, settings, runtime.standard, 1) == NewMaterial(runtime.standard);
    assert LegacyStage(d, textures, settings, runtime.standard, 2) == NewMaterial(runtime.standard);
    assert LegacyStage(d, textures, settings, runtime.standard, 3) == NewMaterial(runtime.standard);
    assert LegacyStage(d, textures, settings, runtime.standard, 4) == NewMaterial(runtime.standard);
  }

  // ---- Names given by the import task, line 546 ----

  /** The decimal digit `d`. */
  function Digit(d: nat): char
    requires d < 10
  {
    (d + '0' as int) as char
  }

  /** `int.ToString()` for a non-negative value: decimal, no sign, no leading zeros. */
  function NatToString(n: nat): (r: string)
    ensures |r| >= 1
    ensures |r| == 1 <==> n < 10
    ensures forall c :: 0 <= c < |r| ==> '0' <= r[c] <= '9'
  {
    if n < 10 then [Digit(n)] else NatToString(n / 10) + [Digit(n % 10)]
  }

  /** Different numbers are written differently. */
  lemma {:induction false} NatToStringInjective(a: nat, b: nat)
    requires NatToString(a) == NatToString(b)
    ensures a == b
  {
    var s := NatToString(a);
    if a < 10 {
      assert b < 10;
      assert Digit(a) as int == a + '0' as int;
      assert Digit(b) as int == b + '0' as int;
    } else {
      assert b >= 10;
      assert s[..|s| - 1] == NatToString(a / 10) == NatToString(b / 10);
      NatToStringInjective(a / 10, b / 10);
      assert s[|s| - 1] == Digit(a % 10) == Digit(b % 10);
      assert Digit(a % 10) as int == a % 10 + '0' as int;
      assert Digit(b % 10) as int == b % 10 + '0' as int;
    }
  }

  /** `"material" + i`. */
  function FallbackName(i: nat): string {
    "material" + NatToString(i)
  }

  /** The names the import task gives to different positions are different. */
  lemma FallbackNameInjective(i: nat, j: nat)
    requires FallbackName(i) == FallbackName(j)
    ensures i == j
  {
    assert FallbackName(i)[8..] == NatToString(i);
    assert FallbackName(j)[8..] == NatToString(j);
    NatToStringInjective(i, j);
  }

  /** The material at position `i` after the import task has named it: a null name becomes `"material" + i`. */
  function NamedAfterImport(m: MaterialState, i: nat): MaterialState {
    if m.name.None? then m.WithName(Some(FallbackName(i))) else m
  }

  /**
   * Renaming replaces only a null name, never an empty or any other one,
   * and changes nothing else; afterwards every material has a name.
   */
  lemma NamedAfterImportRule(m: MaterialState, i: nat)
    ensures var n := NamedAfterImport(m, i);
            && n.name.Some?
            && (m.name.Some? ==> n == m)
            && (m.name.None? ==> n.name == Some(FallbackName(i)) && n.(name := None) == m)
  {
  }

  /** The material the import task stores at position `i`. */
  function ImportedMaterial(d: GltfMaterial, textures: Option<seq<TextureSource>>, settings: ShaderSettings, runtime: Runtime, i: nat): MaterialState {
    NamedAfterImport(ResolvedMaterial(d, textures, settings, runtime), i)
  }

  /**
   * The fallback name is used exactly for a null glTF name on the legacy
   * branch: the MRTK branch names every material itself, and the legacy
   * branch keeps any non-null name, the empty one included.
   */
  lemma FallbackOnlyForNullLegacyName(d: GltfMaterial, textures: Option<seq<TextureSource>>, settings: ShaderSettings, runtime: Runtime, i: nat)
    ensures var m := ImportedMaterial(d, textures, settings, runtime, i);
            && (runtime.graphicsToolsStandard.None? && d.name.None? ==> m.name == Some(FallbackName(i)))
            && (runtime.graphicsToolsStandard.None? && d.name.Some? ==> m.name == d.name)
            && (runtime.graphicsToolsStandard.Some? ==> m.name == Some(UnifiedName(d.name)))
  {
    if runtime.graphicsToolsStandard.Some? {
      UnifiedIdentity(d, settings, runtime.graphicsToolsStandard.value, textures);
    } else {
      LegacyNameRule(d, textures, settings, runtime.standard);
    }
  }

  /** Lines 543-546: the material at position `i`, created and, if its name is null, named. */
  method CreateNamed(d: GltfMaterial, textures: Option<seq<TextureSource>>, settings: ShaderSettings, runtime: Runtime, i: nat)
    returns (mat: Material)
    ensures fresh(mat)
    ensures mat.State() == ImportedMaterial(d, textures, settings, runtime, i)
  {
    mat := CreateMaterial(d, textures, settings, runtime);
    if mat.name.None? {
      mat.SetName(Some(FallbackName(i)));
    }
  }

  // ---- Progress, lines 534-547 ----

  /** The value handed to `onProgress` after the material at position `k` of `n`. */
  function ProgressAt(k: nat, n: nat): real
    requires k < n
  {
    (k + 1) as real / n as real
  }

  /** The values handed to `onProgress` for `n` materials, in order. */
  function ProgressSchedule(n: nat): (r: seq<real>)
    ensures |r| == n
    ensures forall k :: 0 <= k < n ==> r[k] == ProgressAt(k, n)
  {
    seq(n, k requires 0 <= k < n => ProgressAt(k, n))
  }

  /**
   * Progress rises strictly, stays in (0, 1], and ends at exactly 1 when
   * there is at least one material; an empty list reports nothing.
   */
  lemma ProgressScheduleRule(n: nat)
    ensures var r := ProgressSchedule(n);
            && (forall k :: 0 <= k < n ==> 0.0 < r[k] <= 1.0)
            && (forall j, k :: 0 <= j < k < n ==> r[j] < r[k])
            && (n > 0 ==> r[n - 1] == 1.0)
            && (n == 0 ==> r == [])
  {
    forall k | 0 <= k < n
      ensures 0.0 < ProgressAt(k, n) <= 1.0
    {
      ProgressInUnitRange(k, n);
    }
    forall j, k | 0 <= j < k < n
      ensures ProgressAt(j, n) < ProgressAt(k, n)
    {
      DivLess((j + 1) as real, (k + 1) as real, n as real);
    }
    if n > 0 {
      assert ProgressAt(n - 1, n) == n as real / n as real == 1.0;
    }
  }

  lemma ProgressInUnitRange(k: nat, n: nat)
    requires k < n
    ensures 0.0 < ProgressAt(k, n) <= 1.0
  {
    DivLess(0.0, (k + 1) as real, n as real);
    if k + 1 < n {
      DivLess((k + 1) as real, n as real, n as real);
    }
  }

  /** Dividing by a positive number keeps a strict order. */
  lemma DivLess(a: real, b: real, c: real)
    requires 0.0 < c && a < b
    ensures a / c < b / c
  {
    assert (b - a) / c > 0.0;
    assert b / c - a / c == (b - a) / c;
  }

  // ---- The import task, lines 516-551 ----

  class ImportTask {
    /** The glTF materials, or null. */
    var materials: Option<seq<GltfMaterial>>
    /** `textureTask.Result`. */
    var textures: Option<seq<TextureSource>>
    /** `importSettings.shaderOverrides`. */
    var settings: ShaderSettings
    /** What `Shader.Find` returns in this run. */
    var runtime: Runtime
    /** `Result`: one slot per material, null until the coroutine fills it. */
    var results: array?<Material?>
    /** The values handed to `onProgress` so far. */
    var progress: seq<real>
    var isCompleted: bool

    /** `Result` exists exactly when there is a list of materials, with one slot per material. */
    predicate Valid()
      reads this
    {
      materials.Some? ==> results != null && results.Length == |materials.value|
    }

    /** The constructor and the work it schedules (lines 521-530): `Result` has one null slot per material, and stays null without a list. */
    constructor (materials: Option<seq<GltfMaterial>>, textures: Option<seq<TextureSource>>, settings: ShaderSettings, runtime: Runtime)
      ensures Valid()
      ensures this.materials == materials && this.textures == textures && this.settings == settings && this.runtime == runtime
      ensures progress == [] && !isCompleted
      ensures materials.None? ==> results == null
      ensures materials.Some? ==> results != null && fresh(results) && forall i :: 0 <= i < results.Length ==> results[i] == null
    {
      this.materials := materials;
      this.textures := textures;
      this.settings := settings;
      this.runtime := runtime;
      progress := [];
      isCompleted := false;
      if materials.Some? {
        results := new Material?[|materials.value|](_ => null);
      } else {
        results := null;
      }
    }

    /**
     * `OnCoroutine` (lines 532-551): without a list, progress 1 and done;
     * otherwise each material in order, stored at its position as a new
     * object, named if its name is null, followed by its progress report.
     */
    method OnCoroutine()
      requires Valid()
      modifies this, results
      ensures Valid()
      ensures materials == old(materials) && textures == old(textures) && settings == old(settings)
      ensures runtime == old(runtime) && results == old(results)
      ensures isCompleted
      ensures materials.None? ==> progress == old(progress) + [1.0]
      ensures materials.Some? ==> progress == old(progress) + ProgressSchedule(|materials.value|)
      ensures materials.Some? ==> forall i :: 0 <= i < results.Length ==>
                results[i] != null && fresh(results[i])
                && results[i].State() == ImportedMaterial(materials.value[i], textures, settings, runtime, i)
      ensures materials.Some? ==> forall i, j :: 0 <= i < j < results.Length ==> results[i] != results[j]
    {
      if materials.None? {
        progress := progress + [1.0];
        isCompleted := true;
        return;
      }
      var list := materials.value;
      var n := results.Length;
      var i := 0;
      while i < n
        invariant 0 <= i <= n
        invariant materials == old(materials) && textures == old(textures) && settings == old(settings)
        invariant runtime == old(runtime) && results == old(results)
        invariant progress == old(progress) + ProgressSchedule(n)[..i]
        invariant forall j :: 0 <= j < i ==>
                    results[j] != null && fresh(results[j])
                    && results[j].State() == ImportedMaterial(list[j], textures, settings, runtime, j)
        invariant forall j, k :: 0 <= j < k < i ==> results[j] != results[k]
      {
        var mat := CreateNamed(list[i], textures, settings, runtime, i);
        results[i] := mat;
        progress := progress + [ProgressAt(i, n)];
        assert ProgressSchedule(n)[..i + 1] == ProgressSchedule(n)[..i] + [ProgressAt(i, n)];
        i := i + 1;
      }
      assert ProgressSchedule(n)[..n] == ProgressSchedule(n);
      isCompleted := true;
    }
  }
}
