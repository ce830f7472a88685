/** The constant processing presets and output constants of the system
    (settings.py). A preset maps ODM option names to scalar values. */
module Settings {

  import opened Common

  /** The values an option dictionary can hold. Python floats are kept as
      whole tenths (`2.5` is `Decimal(25)`); `StrList` and `Null` stand for
      the non-scalar values (lists, `None`) a dictionary could also hold. */
  datatype OptValue =
    | Str(s: string)
    | Int(i: int)
    | Decimal(tenths: int)
    | Bool(b: bool)
    | StrList(items: seq<string>)
    | Null

  type Preset = map<string, OptValue>

  const Padrao: Preset := map[
    "feature-quality" := Str("high"),
    "min-num-features" := Int(10000),
    "matcher-neighbors" := Int(8),
    "matcher-distance" := Int(3),
    "feature-type" := Str("sift"),
    "optimize-disk-space" := Bool(true),
    "pc-quality" := Str("high"),
    "pc-filter" := Decimal(25),
    "depthmap-resolution" := Int(640),
    "dem-resolution" := Str("2"),
    "orthophoto-cutline" := Bool(true),
    "use-3dmesh" := Bool(true),
    "cog" := Bool(true),
    "auto-boundary" := Bool(true),
    "dsm" := Bool(false),
    "dtm" := Bool(false),
    "skip-3dmodel" := Bool(true),
    "skip-report" := Bool(true),
    "pc-classify" := Bool(false)
  ]

  const Alta: Preset := map[
    "feature-quality" := Str("high"),
    "min-num-features" := Int(16000),
    "matcher-neighbors" := Int(10),
    "matcher-distance" := Int(3),
    "feature-type" := Str("sift"),
    "optimize-disk-space" := Bool(false),
    "pc-quality" := Str("high"),
    "pc-filter" := Decimal(25),
    "depthmap-resolution" := Int(1024),
    "dem-resolution" := Str("1"),
    "orthophoto-cutline" := Bool(true),
    "use-3dmesh" := Bool(true),
    "cog" := Bool(true),
    "auto-boundary" := Bool(true),
    "dsm" := Bool(false),
    "dtm" := Bool(false),
    "skip-3dmodel" := Bool(true),
    "skip-report" := Bool(true),
    "pc-classify" := Bool(false)
  ]

  const Robusta: Preset := map[
    "feature-quality" := Str("high"),
    "min-num-features" := Int(8000),
    "matcher-neighbors" := Int(12),
    "matcher-distance" := Int(5),
    "feature-type" := Str("sift"),
    "optimize-disk-space" := Bool(true),
    "pc-quality" := Str("high"),
    "pc-filter" := Decimal(30),
    "depthmap-resolution" := Int(512),
    "dem-resolution" := Str("2"),
    "orthophoto-cutline" := Bool(true),
    "use-3dmesh" := Bool(true),
    "cog" := Bool(true),
    "auto-boundary" := Bool(true),
    "dsm" := Bool(false),
    "dtm" := Bool(false),
    "skip-3dmodel" := Bool(true),
    "skip-report" := Bool(true),
    "force-gps" := Bool(true),
    "gps-accuracy" := Int(10),
    "pc-classify" := Bool(false)
  ]

  const Rapida: Preset := map[
    "feature-quality" := Str("medium"),
    "min-num-features" := Int(6000),
    "matcher-neighbors" := Int(6),
    "feature-type" := Str("sift"),
    "optimize-disk-space" := Bool(true),
    "pc-quality" := Str("medium"),
    "pc-filter" := Decimal(25),
    "depthmap-resolution" := Int(384),
    "dem-resolution" := Str("5"),
    "orthophoto-cutline" := Bool(true),
    "use-3dmesh" := Bool(true),
    "cog" := Bool(true),
    "auto-boundary" := Bool(true),
    "dsm" := Bool(false),
    "dtm" := Bool(false),
    "skip-3dmodel" := Bool(true),
    "skip-report" := Bool(true),
    "pc-classify" := Bool(false)
  ]

  /** `ODM_QUALITY_PRESETS`. */
  const QualityPresets: map<string, Preset> :=
    map["padrao" := Padrao, "alta" := Alta, "robusta" := Robusta, "rapida" := Rapida]

  /** The module-level `ACTIVE_PRESET` of settings.py (config.py reads its
      own variable of that name from the environment instead). */
  const ActivePreset := "padrao"

  /** The fixed output coordinate reference system (WGS84). */
  const OutputCrs := "EPSG:4326"

  const SupportedImageExtensions: seq<string> := [".jpg", ".jpeg", ".tif", ".tiff", ".png"]

  /** True of a preset value that some present key maps to. */
  predicate Has(p: Preset, key: string, v: OptValue)
  {
    key in p && p[key] == v
  }

  /** The auxiliary outputs every preset switches off, and the steps every
      preset skips. */
  predicate AuxiliaryOutputsOff(p: Preset)
  {
    && Has(p, "dsm", Bool(false))
    && Has(p, "dtm", Bool(false))
    && Has(p, "skip-3dmodel", Bool(true))
    && Has(p, "skip-report", Bool(true))
    && Has(p, "pc-classify", Bool(false))
  }

  lemma ExactlyFourPresets()
    ensures QualityPresets.Keys == {"padrao", "alta", "robusta", "rapida"}
    ensures ActivePreset in QualityPresets
  {
  }

  lemma EveryPresetDisablesAuxiliaryOutputs(name: string)
    requires name in QualityPresets
    ensures AuxiliaryOutputsOff(QualityPresets[name])
  {
  }

  /** `force-gps` and `gps-accuracy` are set only by the robust preset. */
  lemma OnlyRobustaForcesGps(name: string)
    requires name in QualityPresets
    ensures Has(QualityPresets[name], "force-gps", Bool(true)) <==> name == "robusta"
    ensures Has(QualityPresets[name], "gps-accuracy", Int(10)) <==> name == "robusta"
    ensures ("force-gps" in QualityPresets[name]) <==> name == "robusta"
  {
    if name == "padrao" {
      assert "force-gps" !in Padrao && "gps-accuracy" !in Padrao;
    } else if name == "alta" {
      assert "force-gps" !in Alta && "gps-accuracy" !in Alta;
    } else if name == "rapida" {
      assert "force-gps" !in Rapida && "gps-accuracy" !in Rapida;
    }
  }

  lemma OnlyRapidaLacksMatcherDistance(name: string)
    requires name in QualityPresets
    ensures "matcher-distance" !in QualityPresets[name] <==> name == "rapida"
  {
  }

  /** The integer value of `key` in the preset `name` (0 when absent or not
      an integer). */
  function IntSetting(name: string, key: string): int
  {
    if name in QualityPresets && key in QualityPresets[name] && QualityPresets[name][key].Int?
    then QualityPresets[name][key].i else 0
  }

  lemma QualityOrdering()
    ensures IntSetting("alta", "min-num-features") == 16000
    ensures IntSetting("padrao", "min-num-features") == 10000
    ensures IntSetting("robusta", "min-num-features") == 8000
    ensures IntSetting("rapida", "min-num-features") == 6000
    ensures IntSetting("alta", "min-num-features") > IntSetting("padrao", "min-num-features")
              > IntSetting("robusta", "min-num-features") > IntSetting("rapida", "min-num-features")
    ensures IntSetting("alta", "depthmap-resolution") == 1024
    ensures IntSetting("padrao", "depthmap-resolution") == 640
    ensures IntSetting("robusta", "depthmap-resolution") == 512
    ensures IntSetting("rapida", "depthmap-resolution") == 384
    ensures IntSetting("alta", "depthmap-resolution") > IntSetting("padrao", "depthmap-resolution")
              > IntSetting("robusta", "depthmap-resolution") > IntSetting("rapida", "depthmap-resolution")
  {
  }

  /** No preset carries `orthophoto-resolution`, so the default of the
      submission step applies. */
  lemma NoPresetSetsResolution(name: string)
    requires name in QualityPresets
    ensures "orthophoto-resolution" !in QualityPresets[name]
  {
    if name == "padrao" {
      assert "orthophoto-resolution" !in Padrao;
    } else if name == "alta" {
      assert "orthophoto-resolution" !in Alta;
    } else if name == "robusta" {
      assert "orthophoto-resolution" !in Robusta;
    } else {
      assert "orthophoto-resolution" !in Rapida;
    }
  }

  /** No preset carries an extension list, so the download step's default
      list applies. */
  lemma NoPresetSetsExtensions(name: string)
    requires name in QualityPresets
    ensures "SUPPORTED_IMAGE_EXTENSIONS" !in QualityPresets[name]
  {
    if name == "padrao" {
      assert "SUPPORTED_IMAGE_EXTENSIONS" !in Padrao;
    } else if name == "alta" {
      assert "SUPPORTED_IMAGE_EXTENSIONS" !in Alta;
    } else if name == "robusta" {
      assert "SUPPORTED_IMAGE_EXTENSIONS" !in Robusta;
    } else {
      assert "SUPPORTED_IMAGE_EXTENSIONS" !in Rapida;
    }
  }

  /** Job name and projection are added per run, never by a preset. */
  lemma NoPresetSetsNameOrProjection(name: string)
    requires name in QualityPresets
    ensures "name" !in QualityPresets[name] && "projection" !in QualityPresets[name]
  {
    if name == "padrao" {
      assert "name" !in Padrao && "projection" !in Padrao;
    } else if name == "alta" {
      assert "name" !in Alta && "projection" !in Alta;
    } else if name == "robusta" {
      assert "name" !in Robusta && "projection" !in Robusta;
    } else {
      assert "name" !in Rapida && "projection" !in Rapida;
    }
  }

  lemma OutputConstants()
    ensures OutputCrs == "EPSG:4326"
    ensures |SupportedImageExtensions| == 5
    ensures forall i :: 0 <= i < |SupportedImageExtensions| ==>
              StartsWith(SupportedImageExtensions[i], ".") && Lower(SupportedImageExtensions[i]) == SupportedImageExtensions[i]
    ensures forall i, j :: 0 <= i < j < |SupportedImageExtensions| ==> SupportedImageExtensions[i] != SupportedImageExtensions[j]
  {
    forall i | 0 <= i < |SupportedImageExtensions|
      ensures Lower(SupportedImageExtensions[i]) == SupportedImageExtensions[i]
    {
      LowerOfLower(SupportedImageExtensions[i]);
    }
  }
}
