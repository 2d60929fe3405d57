/**
 * The texture rules of the Kaiser mipmap tool, on importer records: which
 * mipmap filter a texture should use, when it still needs processing, what
 * applying the settings writes, how filter names and formats are shown, and
 * what the import-time hook does to a new texture.
 */
module TextureRules {
  import opened Wrappers
  import Seqs

  datatype TextureImporterType =
    | Default | NormalMap | GUI | Sprite | Cursor | Cookie | Lightmap
    | DirectionalLightmap | Shadowmask | SingleChannel

  /**
   * TextureImporterMipFilter. The engine names two values; any other value
   * is kept with the text the enum's ToString gives for it.
   */
  datatype MipFilter = BoxFilter | KaiserFilter | OtherFilter(name: string)

  /** The importer settings the tool reads and writes. */
  datatype Importer = Importer(
    textureType: TextureImporterType,
    mipmapEnabled: bool,
    mipmapFilter: MipFilter,
    streamingMipmaps: bool)

  /** The window's two texture settings. */
  datatype Settings = Settings(setNormalMapsToBox: bool, enableMipStreaming: bool)

  /** The filter the settings ask for: Box for normal maps when so set, Kaiser otherwise. */
  function DesiredFilter(t: TextureImporterType, s: Settings): MipFilter {
    if t == NormalMap && s.setNormalMapsToBox then BoxFilter else KaiserFilter
  }

  /** NeedsMipmapFilterUpdate. */
  function NeedsMipmapFilterUpdate(imp: Importer, s: Settings): bool {
    if imp.textureType == NormalMap then
      if s.setNormalMapsToBox then imp.mipmapFilter != BoxFilter else imp.mipmapFilter != KaiserFilter
    else
      imp.mipmapFilter != KaiserFilter
  }

  /** NeedsMipStreamingUpdate. */
  function NeedsMipStreamingUpdate(imp: Importer, s: Settings): bool {
    imp.streamingMipmaps != s.enableMipStreaming
  }

  /** The "needs processing" test of FilterTextures: the filter first, then the streaming flag. */
  function NeedsProcessing(imp: Importer, s: Settings): bool {
    var needsFilter :=
      if imp.textureType == NormalMap then
        if s.setNormalMapsToBox then imp.mipmapFilter != BoxFilter else imp.mipmapFilter != KaiserFilter
      else imp.mipmapFilter != KaiserFilter;
    if !needsFilter then imp.streamingMipmaps != s.enableMipStreaming else true
  }

  /** The "already processed" test of CountTexturesToUpdate and ApplyMipmapFiltering. */
  function AlreadyProcessed(imp: Importer, s: Settings): bool {
    var filterDone :=
      if imp.textureType == NormalMap then
        (s.setNormalMapsToBox && imp.mipmapFilter == BoxFilter) || (!s.setNormalMapsToBox && imp.mipmapFilter == KaiserFilter)
      else imp.mipmapFilter == KaiserFilter;
    filterDone && imp.streamingMipmaps == s.enableMipStreaming
  }

  /**
   * The list's test and the counter's test are exact opposites, both are the
   * two helper tests combined, and "processed" means "has the desired filter
   * and streaming flag".
   */
  lemma ProcessingTestsAgree(imp: Importer, s: Settings)
    ensures NeedsProcessing(imp, s) == !AlreadyProcessed(imp, s)
    ensures NeedsProcessing(imp, s) == (NeedsMipmapFilterUpdate(imp, s) || NeedsMipStreamingUpdate(imp, s))
    ensures AlreadyProcessed(imp, s) <==>
      imp.mipmapFilter == DesiredFilter(imp.textureType, s) && imp.streamingMipmaps == s.enableMipStreaming
  {
  }

  /** The writes of ApplyMipmapFiltering to one importer: the desired filter and the streaming flag. */
  function ApplySettings(imp: Importer, s: Settings): (r: Importer)
    ensures AlreadyProcessed(r, s)
    ensures r.textureType == imp.textureType && r.mipmapEnabled == imp.mipmapEnabled
    ensures AlreadyProcessed(imp, s) ==> r == imp
  {
    imp.(mipmapFilter := if imp.textureType == NormalMap then (if s.setNormalMapsToBox then BoxFilter else KaiserFilter) else KaiserFilter,
         streamingMipmaps := s.enableMipStreaming)
  }

  /** Applying twice writes nothing new. */
  lemma ApplyIdempotent(imp: Importer, s: Settings)
    ensures ApplySettings(ApplySettings(imp, s), s) == ApplySettings(imp, s)
  {
  }

  /** SupportsKaiserMipmap: an importer that is a lightmap or has mipmaps; no importer means no. */
  function SupportsKaiserMipmap(imp: Option<Importer>): bool {
    imp.Some? && (imp.value.textureType == Lightmap || imp.value.mipmapEnabled)
  }

  /** The name ToString gives a filter. */
  function EnumName(f: MipFilter): string {
    match f
    case BoxFilter => "BoxFilter"
    case KaiserFilter => "KaiserFilter"
    case OtherFilter(name) => name
  }

  predicate EndsWith(s: string, suffix: string) {
    |suffix| <= |s| && s[|s| - |suffix|..] == suffix
  }

  /** GetSimplifiedFilterName: "Kaiser", "Box", or the name without a trailing "Filter". */
  function GetSimplifiedFilterName(f: MipFilter): (r: string)
    ensures EndsWith(EnumName(f), "Filter") ==> r + "Filter" == EnumName(f)
    ensures !EndsWith(EnumName(f), "Filter") ==> r == EnumName(f)
  {
    match f
    case KaiserFilter => "Kaiser"
    case BoxFilter => "Box"
    case OtherFilter(name) =>
      if EndsWith(name, "Filter") then name[..|name| - 6] else name
  }

  /** The texture formats the list names; every other format is OtherFormat. */
  datatype TextureFormat =
    | DXT1 | DXT5 | RGB24 | RGBA32 | BC7 | BC4 | BC5
    | ASTC_4x4 | ASTC_5x5 | ASTC_6x6 | ASTC_8x8 | ASTC_10x10 | ASTC_12x12
    | ETC_RGB4 | ETC2_RGB | OtherFormat

  /** The format line of GetTextureFormatInfo; empty for a format it does not name. */
  function FormatLabel(f: TextureFormat): (r: string)
    ensures '\n' !in r
  {
    match f
    case DXT1 => "DXT1"
    case DXT5 => "DXT5"
    case RGB24 => "RGB24"
    case RGBA32 => "RGBA32"
    case BC7 => "BC7"
    case BC4 => "BC4"
    case BC5 => "BC5"
    case ASTC_4x4 => "ASTC"
    case ASTC_5x5 => "ASTC"
    case ASTC_6x6 => "ASTC"
    case ASTC_8x8 => "ASTC"
    case ASTC_10x10 => "ASTC"
    case ASTC_12x12 => "ASTC"
    case ETC_RGB4 => "ETC"
    case ETC2_RGB => "ETC"
    case OtherFormat => ""
  }

  /** The type line of GetTextureFormatInfo. */
  function TypeLabel(t: TextureImporterType): (r: string)
    ensures '\n' !in r && r != ""
  {
    if t == NormalMap then "Normal"
    else if t == Lightmap then "Lightmap"
    else if t == Cookie then "Cookie"
    else if t == GUI then "GUI"
    else "Default"
  }

  /**
   * GetTextureFormatInfo, given the texture's format (None for no texture)
   * and its importer (None for no importer): "Unknown" without an importer,
   * otherwise the format line, when there is one, above the type line.
   */
  function GetTextureFormatInfo(format: Option<TextureFormat>, importer: Option<Importer>): (r: string)
    ensures importer == None ==> r == "Unknown"
  {
    if importer == None then "Unknown"
    else
      var textureType := TypeLabel(importer.value.textureType);
      var formatInfo := if format == None then "" else FormatLabel(format.value);
      if formatInfo != "" then formatInfo + "\n" + textureType else textureType
  }

  /** The shown text reads back as its lines: the format (when known) and then the type. */
  lemma FormatInfoLines(format: Option<TextureFormat>, imp: Importer)
    ensures var formatLine := if format == None then "" else FormatLabel(format.value);
      Seqs.SplitFirst(GetTextureFormatInfo(format, Some(imp)), '\n') ==
        if formatLine != "" then (formatLine, TypeLabel(imp.textureType)) else (TypeLabel(imp.textureType), "")
  {
    var formatLine := if format == None then "" else FormatLabel(format.value);
    if formatLine != "" {
      Seqs.SplitFirstJoined(formatLine, '\n', TypeLabel(imp.textureType));
    }
  }

  /**
   * KaiserPostProcessor.OnPreprocessTexture on a texture being imported:
   * with auto-apply on, mipmaps enabled and no file at the asset path yet (a
   * new asset), normal maps get Box when the Box setting is on and every
   * other texture Kaiser, and streaming takes the streaming setting.
   * Otherwise the importer is left as it is.
   */
  function OnPreprocessTexture(imp: Importer, autoApply: bool, useBoxForNormalMaps: bool,
                               enableMipStreaming: bool, fileExists: bool): (r: Importer)
    ensures !autoApply || !imp.mipmapEnabled || fileExists ==> r == imp
    ensures autoApply && imp.mipmapEnabled && !fileExists ==>
      && r.mipmapFilter == (if imp.textureType == NormalMap && useBoxForNormalMaps then BoxFilter else KaiserFilter)
      && r.streamingMipmaps == enableMipStreaming
      && r.textureType == imp.textureType && r.mipmapEnabled
  {
    if !autoApply then imp
    else if !imp.mipmapEnabled then imp
    else if fileExists then imp
    else
      var filter := if imp.textureType == NormalMap && useBoxForNormalMaps then BoxFilter else KaiserFilter;
      imp.(mipmapFilter := filter, streamingMipmaps := enableMipStreaming)
  }

  /** The import hook writes what the window's apply writes for the same settings, so its result counts as processed. */
  lemma PreprocessAgreesWithApply(imp: Importer, autoApply: bool, useBoxForNormalMaps: bool,
                                  enableMipStreaming: bool, fileExists: bool)
    requires autoApply && imp.mipmapEnabled && !fileExists
    ensures var s := Settings(useBoxForNormalMaps, enableMipStreaming);
      && OnPreprocessTexture(imp, autoApply, useBoxForNormalMaps, enableMipStreaming, fileExists) == ApplySettings(imp, s)
      && AlreadyProcessed(OnPreprocessTexture(imp, autoApply, useBoxForNormalMaps, enableMipStreaming, fileExists), s)
  {
  }

  /**
   * The values the import hook reads when the editor preferences hold no
   * setting: the window's toggles for these two settings never write the
   * preferences, so these are what the hook sees.
   */
  const PrefsUseBoxForNormalMaps := true
  const PrefsEnableMipStreaming := true

  /**
   * With the window set to Kaiser for normal maps, a new normal map imported
   * with auto-apply gets Box from the hook, which the window then lists as
   * needing processing again.
   */
  lemma HookIgnoresWindowToggles()
    ensures var windowSettings := Settings(false, true);
      var imported := OnPreprocessTexture(Importer(NormalMap, true, KaiserFilter, true), true,
                                          PrefsUseBoxForNormalMaps, PrefsEnableMipStreaming, false);
      && imported.mipmapFilter == BoxFilter
      && NeedsProcessing(imported, windowSettings)
  {
  }

  /** A path counts for CountTexturesToUpdate and ApplyMipmapFiltering: it has a mipmapped importer not yet processed. */
  predicate NeedsUpdate(importers: map<string, Importer>, s: Settings, path: string) {
    path in importers && importers[path].mipmapEnabled && !AlreadyProcessed(importers[path], s)
  }

  /** The paths ApplyMipmapFiltering goes on to process, in order. */
  function PathsToProcess(importers: map<string, Importer>, s: Settings, paths: seq<string>): seq<string> {
    Seqs.Filter(p => NeedsUpdate(importers, s, p), paths)
  }

  /** The paths the scan keeps: those whose importer supports Kaiser mipmaps. */
  function Supported(importers: map<string, Importer>, paths: seq<string>): seq<string> {
    Seqs.Filter(p => SupportsKaiserMipmap(if p in importers then Some(importers[p]) else None), paths)
  }

  /** A path FilterTextures lists: mipmapped, and shown either always or when it is a lightmap or needs processing. */
  predicate Shown(importers: map<string, Importer>, s: Settings, showAlreadyProcessed: bool, path: string) {
    && path in importers && importers[path].mipmapEnabled
    && (showAlreadyProcessed || importers[path].textureType == Lightmap || NeedsProcessing(importers[path], s))
  }

  /** The list FilterTextures builds from all scanned paths, in order. */
  function Listed(importers: map<string, Importer>, s: Settings, showAlreadyProcessed: bool, paths: seq<string>): seq<string> {
    Seqs.Filter(p => Shown(importers, s, showAlreadyProcessed, p), paths)
  }

  /**
   * What FilterTextures lists: only mipmapped textures; with "show already
   * processed" every mipmapped one; without it, exactly the lightmaps and the
   * textures needing processing.
   */
  lemma ListedTextures(importers: map<string, Importer>, s: Settings, showAlreadyProcessed: bool, paths: seq<string>)
    ensures forall p :: p in Listed(importers, s, showAlreadyProcessed, paths) ==>
      p in paths && p in importers && importers[p].mipmapEnabled
    ensures showAlreadyProcessed ==> forall p :: p in paths && p in importers && importers[p].mipmapEnabled ==>
      p in Listed(importers, s, showAlreadyProcessed, paths)
    ensures !showAlreadyProcessed ==> forall p :: p in paths && p in importers && importers[p].mipmapEnabled ==>
      (p in Listed(importers, s, showAlreadyProcessed, paths) <==>
        importers[p].textureType == Lightmap || NeedsProcessing(importers[p], s))
  {
    var r := Listed(importers, s, showAlreadyProcessed, paths);
    forall p | p in r
      ensures p in paths && Shown(importers, s, showAlreadyProcessed, p)
    {
      var i :| 0 <= i < |r| && r[i] == p;
    }
    forall p | p in paths && Shown(importers, s, showAlreadyProcessed, p)
      ensures p in r
    {
      var i :| 0 <= i < |paths| && paths[i] == p;
    }
  }

  /** No path needs processing exactly when no listed path has a mipmapped importer that is not yet processed. */
  lemma NothingToProcess(importers: map<string, Importer>, s: Settings, paths: seq<string>)
    ensures PathsToProcess(importers, s, paths) == [] <==>
      forall p :: p in paths && p in importers && importers[p].mipmapEnabled ==> AlreadyProcessed(importers[p], s)
  {
    var r := PathsToProcess(importers, s, paths);
    if r != [] {
      assert r[0] in paths && NeedsUpdate(importers, s, r[0]);
    }
  }

  /**
   * Every path needing processing is shown whatever the toggle, so the
   * count and the apply on the listed paths find the same paths as on all
   * scanned ones.
   */
  lemma ListedKeepsWork(importers: map<string, Importer>, s: Settings, showAlreadyProcessed: bool, paths: seq<string>)
    ensures PathsToProcess(importers, s, Listed(importers, s, showAlreadyProcessed, paths)) ==
      PathsToProcess(importers, s, paths)
  {
    forall p | NeedsUpdate(importers, s, p)
      ensures Shown(importers, s, showAlreadyProcessed, p)
    {
      ProcessingTestsAgree(importers[p], s);
    }
    Seqs.FilterOfFiltered(p => Shown(importers, s, showAlreadyProcessed, p), p => NeedsUpdate(importers, s, p), paths);
  }
}
