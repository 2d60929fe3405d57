/**
 * The Kaiser mipmap window: it scans the scene's textures, lists those that
 * still need the mipmap filter or the streaming flag set, lets the user
 * select rows with the mouse and the arrow keys, and applies the settings.
 *
 * The project's texture importers are the `importers` field, keyed by asset
 * path. The scene traversal, the build-label test and the asset search are
 * engine queries: the scan receives their result, the paths of the scene's
 * textures in the order the search returns them, as `found`.
 */
module SetKaiser {
  import opened Wrappers
  import opened TextureRules
  import Seqs

  datatype KeyCode = UpArrow | DownArrow | OtherKey

  /** The rows from `lo` to `hi` inclusive (none when `hi < lo`). */
  function RangeSet(list: seq<string>, lo: int, hi: int): (r: set<string>)
    requires 0 <= lo && hi < |list|
    ensures forall p :: p in r ==> p in list
    ensures lo <= hi ==> list[lo] in r && list[hi] in r
  {
    set k | lo <= k <= hi :: list[k]
  }

  class SetKaiser {
    /** The texture importers of the project, by asset path. */
    var importers: map<string, Importer>

    var texturePaths: seq<string>
    var allTexturePaths: seq<string>
    var setNormalMapsToBox: bool
    var showAlreadyKaiserTextures: bool
    var enableMipStreaming: bool
    var selectedPaths: set<string>
    var lastSelectedPath: Option<string>
    var isDragging: bool
    var dragStartIndex: int
    var focusedIndex: int

    /** The two texture settings as saved in the editor preferences, which the import hook reads. */
    var prefs: TextureRules.Settings

    /**
     * OnEnable: the texture settings come from the preferences, and nothing
     * is scanned, listed or selected yet.
     */
    constructor (importers: map<string, Importer>, prefs: TextureRules.Settings)
      ensures this.importers == importers && this.prefs == prefs
      ensures Settings() == prefs
      ensures texturePaths == [] && allTexturePaths == [] && !showAlreadyKaiserTextures
      ensures selectedPaths == {} && lastSelectedPath == None
      ensures !isDragging && dragStartIndex == -1 && focusedIndex == -1
      ensures Valid()
    {
      this.importers := importers;
      this.prefs := prefs;
      texturePaths := [];
      allTexturePaths := [];
      setNormalMapsToBox := prefs.setNormalMapsToBox;
      showAlreadyKaiserTextures := false;
      enableMipStreaming := prefs.enableMipStreaming;
      selectedPaths := {};
      lastSelectedPath := None;
      isDragging := false;
      dragStartIndex := -1;
      focusedIndex := -1;
    }

    function Settings(): (r: TextureRules.Settings)
      reads this
      ensures r.setNormalMapsToBox == setNormalMapsToBox && r.enableMipStreaming == enableMipStreaming
    {
      TextureRules.Settings(setNormalMapsToBox, enableMipStreaming)
    }

    /**
     * What the window keeps true between events: the selection and the
     * shift-click anchor are listed rows, and the keyboard focus is a row
     * or -1 (none).
     */
    predicate Valid()
      reads this
    {
      && (forall p :: p in selectedPaths ==> p in texturePaths)
      && (lastSelectedPath.Some? ==> lastSelectedPath.value in texturePaths)
      && -1 <= focusedIndex < |texturePaths|
    }

    /** The filtering pass over all scanned paths: what FilterTextures lists. */
    method ListedPaths() returns (listed: seq<string>)
      ensures listed == Listed(importers, Settings(), showAlreadyKaiserTextures, allTexturePaths)
    {
      listed := [];
      for n := 0 to |allTexturePaths|
        invariant listed == Listed(importers, Settings(), showAlreadyKaiserTextures, allTexturePaths[..n])
      {
        var path := allTexturePaths[n];
        if path in importers && importers[path].mipmapEnabled {
          var imp := importers[path];
          if showAlreadyKaiserTextures {
            listed := listed + [path];
          } else if imp.textureType == Lightmap || NeedsProcessing(imp, Settings()) {
            listed := listed + [path];
          }
        }
        assert allTexturePaths[..n + 1][..n] == allTexturePaths[..n];
      }
      assert allTexturePaths[..|allTexturePaths|] == allTexturePaths;
    }

    /** FilterTextures: the list is rebuilt from all scanned paths; nothing else changes. */
    method FilterTextures()
      modifies this`texturePaths
      ensures texturePaths == Listed(importers, Settings(), showAlreadyKaiserTextures, allTexturePaths)
    {
      texturePaths := ListedPaths();
    }

    /** The "show already processed" toggle: a change refilters the list and clears selection and focus. */
    method SetShowAlreadyProcessed(value: bool)
      modifies this`showAlreadyKaiserTextures, this`texturePaths, this`selectedPaths,
               this`lastSelectedPath, this`focusedIndex
      ensures showAlreadyKaiserTextures == value
      ensures value == old(showAlreadyKaiserTextures) ==>
        && texturePaths == old(texturePaths) && selectedPaths == old(selectedPaths)
        && lastSelectedPath == old(lastSelectedPath) && focusedIndex == old(focusedIndex)
      ensures value != old(showAlreadyKaiserTextures) ==>
        && texturePaths == Listed(importers, Settings(), value, allTexturePaths)
        && selectedPaths == {} && lastSelectedPath == None && focusedIndex == -1
      ensures old(Valid()) || value != old(showAlreadyKaiserTextures) ==> Valid()
    {
      var previousValue := showAlreadyKaiserTextures;
      showAlreadyKaiserTextures := value;
      if previousValue != showAlreadyKaiserTextures {
        FilterTextures();
        selectedPaths := {};
        lastSelectedPath := None;
        focusedIndex := -1;
      }
    }

    /**
     * The normal-map and streaming toggles as written: the settings change,
     * the list is not refiltered, and the preferences are not saved.
     */
    method SetTextureSettingsAsWritten(s: TextureRules.Settings)
      modifies this`setNormalMapsToBox, this`enableMipStreaming
      ensures Settings() == s && prefs == old(prefs)
    {
      setNormalMapsToBox := s.setNormalMapsToBox;
      enableMipStreaming := s.enableMipStreaming;
    }

    /**
     * The toggles as the preference keys intend them: the settings change and
     * are saved, so the import hook applies what the window shows; the list
     * is not refiltered.
     */
    method SetTextureSettings(s: TextureRules.Settings)
      modifies this`setNormalMapsToBox, this`enableMipStreaming, this`prefs
      ensures Settings() == s && prefs == s
    {
      setNormalMapsToBox := s.setNormalMapsToBox;
      enableMipStreaming := s.enableMipStreaming;
      prefs := s;
    }

    /**
     * A new texture imported at `path` with importer settings `imp`: the
     * import hook, reading the preferences, decides its filter and streaming
     * flag; `fileExists` is the hook's test for a file already at the asset
     * path. When the hook acts and the preferences hold the window's settings
     * (as the corrected toggles keep them), an auto-applied mipmapped texture
     * arrives already processed and is not counted for an update.
     */
    method ImportNewTexture(path: string, imp: Importer, autoApply: bool, fileExists: bool)
      modifies this`importers
      ensures importers == old(importers)[path := OnPreprocessTexture(imp, autoApply,
                              prefs.setNormalMapsToBox, prefs.enableMipStreaming, fileExists)]
      ensures autoApply && imp.mipmapEnabled && !fileExists && prefs == Settings() ==> !NeedsUpdate(importers, Settings(), path)
    {
      var imported := OnPreprocessTexture(imp, autoApply, prefs.setNormalMapsToBox, prefs.enableMipStreaming, fileExists);
      if autoApply && imp.mipmapEnabled && !fileExists {
        PreprocessAgreesWithApply(imp, autoApply, prefs.setNormalMapsToBox, prefs.enableMipStreaming, fileExists);
      }
      importers := importers[path := imported];
    }

    /** The scan's selection of found paths: those whose importer supports Kaiser mipmaps, in order. */
    method CollectSupported(found: seq<string>) returns (supported: seq<string>)
      ensures supported == Supported(importers, found)
    {
      supported := [];
      for n := 0 to |found|
        invariant supported == Supported(importers, found[..n])
      {
        var path := found[n];
        var importer := if path in importers then Some(importers[path]) else None;
        if SupportsKaiserMipmap(importer) {
          supported := supported + [path];
        }
        assert found[..n + 1][..n] == found[..n];
      }
      assert found[..|found|] == found;
    }

    /**
     * ScanTextures: all scanned paths are the found ones that support Kaiser
     * mipmaps, the list is refiltered from them, and selection, anchor and
     * focus are reset.
     */
    method ScanTextures(found: seq<string>)
      modifies this`texturePaths, this`allTexturePaths, this`selectedPaths,
               this`lastSelectedPath, this`focusedIndex
      ensures allTexturePaths == Supported(importers, found)
      ensures texturePaths == Listed(importers, Settings(), showAlreadyKaiserTextures, allTexturePaths)
      ensures selectedPaths == {} && lastSelectedPath == None && focusedIndex == -1
      ensures Valid()
    {
      texturePaths := [];
      allTexturePaths := [];
      selectedPaths := {};
      lastSelectedPath := None;
      allTexturePaths := CollectSupported(found);
      FilterTextures();
      focusedIndex := -1;
    }

    /** CountTexturesToUpdate: the number of paths with a mipmapped importer not yet processed. */
    method CountTexturesToUpdate(paths: seq<string>) returns (count: nat)
      ensures count == |PathsToProcess(importers, Settings(), paths)|
    {
      count := 0;
      for n := 0 to |paths|
        invariant count == |PathsToProcess(importers, Settings(), paths[..n])|
      {
        var path := paths[n];
        if path in importers && importers[path].mipmapEnabled {
          if !AlreadyProcessed(importers[path], Settings()) {
            count := count + 1;
          }
        }
        assert paths[..n + 1][..n] == paths[..n];
      }
      assert paths[..|paths|] == paths;
    }

    /** The first pass of ApplyMipmapFiltering: the paths that still need processing, in order. */
    method SelectPathsToProcess(paths: seq<string>) returns (actual: seq<string>)
      ensures actual == PathsToProcess(importers, Settings(), paths)
    {
      actual := [];
      for n := 0 to |paths|
        invariant actual == PathsToProcess(importers, Settings(), paths[..n])
      {
        var path := paths[n];
        if path in importers {
          var imp := importers[path];
          if imp.mipmapEnabled && !AlreadyProcessed(imp, Settings()) {
            actual := actual + [path];
          }
        }
        assert paths[..n + 1][..n] == paths[..n];
      }
      assert paths[..|paths|] == paths;
    }

    /** The second pass: every listed path with an importer gets the desired filter and streaming flag. */
    method WriteSettings(actual: seq<string>)
      modifies this`importers
      ensures importers.Keys == old(importers).Keys
      ensures forall p :: p in importers ==>
        importers[p] == if p in actual then ApplySettings(old(importers)[p], Settings()) else old(importers)[p]
    {
      for n := 0 to |actual|
        invariant importers.Keys == old(importers).Keys
        invariant forall p :: p in importers ==>
          importers[p] == if p in actual[..n] then ApplySettings(old(importers)[p], Settings()) else old(importers)[p]
      {
        var path := actual[n];
        if path in importers {
          var imp := importers[path];
          var filter := if imp.textureType == NormalMap then (if setNormalMapsToBox then BoxFilter else KaiserFilter)
                        else KaiserFilter;
          importers := importers[path := imp.(mipmapFilter := filter, streamingMipmaps := enableMipStreaming)];
        }
        assert actual[..n + 1] == actual[..n] + [path];
      }
      assert actual[..|actual|] == actual;
    }

    /**
     * ApplyMipmapFiltering: when no path needs processing nothing changes;
     * otherwise exactly those paths get the desired settings and the window
     * rescans. Either way no path is left needing processing, so a second
     * apply changes nothing.
     */
    method ApplyMipmapFiltering(paths: seq<string>, found: seq<string>) returns (noChangesNeeded: bool)
      modifies this`importers, this`texturePaths, this`allTexturePaths, this`selectedPaths,
               this`lastSelectedPath, this`focusedIndex
      ensures noChangesNeeded <==> old(PathsToProcess(importers, Settings(), paths)) == []
      ensures noChangesNeeded ==>
        && importers == old(importers) && texturePaths == old(texturePaths)
        && allTexturePaths == old(allTexturePaths) && selectedPaths == old(selectedPaths)
        && lastSelectedPath == old(lastSelectedPath) && focusedIndex == old(focusedIndex)
      ensures importers.Keys == old(importers).Keys
      ensures forall p :: p in importers ==>
        importers[p] == if NeedsUpdate(old(importers), Settings(), p) && p in paths
                        then ApplySettings(old(importers)[p], Settings()) else old(importers)[p]
      ensures !noChangesNeeded ==>
        && allTexturePaths == Supported(importers, found)
        && texturePaths == Listed(importers, Settings(), showAlreadyKaiserTextures, allTexturePaths)
        && selectedPaths == {} && lastSelectedPath == None && focusedIndex == -1
      ensures PathsToProcess(importers, Settings(), paths) == []
      ensures old(Valid()) ==> Valid()
    {
      var actualPathsToProcess := SelectPathsToProcess(paths);
      if |actualPathsToProcess| == 0 {
        noChangesNeeded := true;
        return;
      }
      noChangesNeeded := false;
      WriteSettings(actualPathsToProcess);
      ScanTextures(found);
    }

    /** Adds the rows from `lo` to `hi` to the selection. */
    method AddRange(lo: int, hi: int)
      requires 0 <= lo <= hi < |texturePaths|
      modifies this`selectedPaths
      ensures selectedPaths == old(selectedPaths) + RangeSet(texturePaths, lo, hi)
    {
      for idx := lo to hi + 1
        invariant selectedPaths == old(selectedPaths) + RangeSet(texturePaths, lo, idx - 1)
      {
        selectedPaths := selectedPaths + {texturePaths[idx]};
        assert RangeSet(texturePaths, lo, idx) == RangeSet(texturePaths, lo, idx - 1) + {texturePaths[idx]};
      }
    }

    /**
     * A mouse press on row `i`: control toggles the row; shift with an
     * anchor adds the rows between the anchor and `i`; otherwise a drag
     * starts at `i` and the row becomes the selection (added to it with alt)
     * and the anchor.
     */
    method MouseDown(i: int, control: bool, shift: bool, alt: bool)
      requires Valid() && 0 <= i < |texturePaths|
      modifies this`selectedPaths, this`lastSelectedPath, this`isDragging, this`dragStartIndex
      ensures Valid()
      ensures var path := texturePaths[i];
        && (control && path in old(selectedPaths) ==>
              selectedPaths == old(selectedPaths) - {path} && lastSelectedPath == old(lastSelectedPath))
        && (control && path !in old(selectedPaths) ==>
              selectedPaths == old(selectedPaths) + {path} && lastSelectedPath == Some(path))
        && (!control && shift && old(lastSelectedPath).Some? ==>
              var lastIndex := Seqs.IndexOf(texturePaths, old(lastSelectedPath).value);
              && 0 <= lastIndex
              && selectedPaths == old(selectedPaths) + RangeSet(texturePaths, Min(lastIndex, i), Max(lastIndex, i))
              && lastSelectedPath == old(lastSelectedPath))
        && (control || (shift && old(lastSelectedPath).Some?) ==>
              isDragging == old(isDragging) && dragStartIndex == old(dragStartIndex))
        && (!control && !(shift && old(lastSelectedPath).Some?) ==>
              && isDragging && dragStartIndex == i
              && selectedPaths == (if alt then old(selectedPaths) else {}) + {path}
              && lastSelectedPath == Some(path))
    {
      var path := texturePaths[i];
      if control {
        if path in selectedPaths {
          selectedPaths := selectedPaths - {path};
        } else {
          selectedPaths := selectedPaths + {path};
          lastSelectedPath := Some(path);
        }
      } else if shift && lastSelectedPath.Some? {
        var lastIndex := Seqs.IndexOf(texturePaths, lastSelectedPath.value);
        var currentIndex := i;
        AddRange(Min(lastIndex, currentIndex), Max(lastIndex, currentIndex));
      } else {
        isDragging := true;
        dragStartIndex := i;
        if !alt {
          selectedPaths := {};
        }
        selectedPaths := selectedPaths + {path};
        lastSelectedPath := Some(path);
      }
    }

    /**
     * The mouse dragged over row `i` during a drag: the rows between the drag
     * start and `i` are added, to an emptied selection unless control or
     * shift is held. The drag start must still be a row.
     */
    method MouseDragOver(i: int, control: bool, shift: bool)
      requires Valid() && 0 <= i < |texturePaths|
      requires isDragging ==> 0 <= dragStartIndex < |texturePaths|
      modifies this`selectedPaths
      ensures Valid()
      ensures !isDragging ==> selectedPaths == old(selectedPaths)
      ensures isDragging ==>
        selectedPaths == (if !control && !shift then {} else old(selectedPaths)) +
                         RangeSet(texturePaths, Min(dragStartIndex, i), Max(dragStartIndex, i))
    {
      if isDragging {
        var startIdx := Min(dragStartIndex, i);
        var endIdx := Max(dragStartIndex, i);
        if !control && !shift {
          selectedPaths := {};
        }
        AddRange(startIdx, endIdx);
      }
    }

    /** A mouse release ends a drag. */
    method MouseUp()
      modifies this`isDragging
      ensures !isDragging
    {
      if isDragging {
        isDragging := false;
      }
    }

    /**
     * HandleKeyboardNavigation for a key press in the focused window
     * (`keyDown` false: any other event). With rows listed, the focus first
     * starts from the current focus, else from a selected row, else from
     * the top (`from`); an arrow key that can move it one row moves it,
     * makes that row the anchor, and selects it alone or, with shift, in
     * addition.
     */
    method HandleKeyboardNavigation(keyDown: bool, key: KeyCode, shift: bool)
      returns (consumed: bool, ghost from: int)
      requires Valid()
      modifies this`selectedPaths, this`lastSelectedPath, this`focusedIndex
      ensures Valid()
      ensures |texturePaths| == 0 || !keyDown ==>
        && !consumed && selectedPaths == old(selectedPaths)
        && lastSelectedPath == old(lastSelectedPath) && focusedIndex == old(focusedIndex)
      ensures |texturePaths| > 0 && keyDown ==>
        && 0 <= from < |texturePaths|
        && (old(focusedIndex) >= 0 ==> from == old(focusedIndex))
        && (old(focusedIndex) < 0 && old(selectedPaths) != {} ==>
              texturePaths[from] in old(selectedPaths) && Seqs.IndexOf(texturePaths, texturePaths[from]) == from)
        && (old(focusedIndex) < 0 && old(selectedPaths) == {} ==> from == 0)
        && (consumed <==> (key == UpArrow && from > 0) || (key == DownArrow && from < |texturePaths| - 1))
        && (!consumed ==>
              && focusedIndex == from && selectedPaths == old(selectedPaths)
              && lastSelectedPath == old(lastSelectedPath))
        && (consumed ==>
              && focusedIndex == (if key == UpArrow then from - 1 else from + 1)
              && selectedPaths == (if shift then old(selectedPaths) else {}) + {texturePaths[focusedIndex]}
              && lastSelectedPath == Some(texturePaths[focusedIndex]))
    {
      consumed := false;
      from := focusedIndex;
      if |texturePaths| == 0 || !keyDown {
        return;
      }
      if focusedIndex < 0 && selectedPaths != {} {
        var first :| first in selectedPaths;
        focusedIndex := Seqs.IndexOf(texturePaths, first);
      } else if focusedIndex < 0 {
        focusedIndex := 0;
      }
      from := focusedIndex;
      match key
      case UpArrow =>
        if focusedIndex > 0 {
          focusedIndex := focusedIndex - 1;
          if !shift {
            selectedPaths := {};
          }
          selectedPaths := selectedPaths + {texturePaths[focusedIndex]};
          lastSelectedPath := Some(texturePaths[focusedIndex]);
          consumed := true;
        }
      case DownArrow =>
        if focusedIndex < |texturePaths| - 1 {
          focusedIndex := focusedIndex + 1;
          if !shift {
            selectedPaths := {};
          }
          selectedPaths := selectedPaths + {texturePaths[focusedIndex]};
          lastSelectedPath := Some(texturePaths[focusedIndex]);
          consumed := true;
        }
      case OtherKey =>
    }
  }

  function Min(a: int, b: int): (r: int)
    ensures r <= a && r <= b && (r == a || r == b)
  {
    if a < b then a else b
  }

  function Max(a: int, b: int): (r: int)
    ensures r >= a && r >= b && (r == a || r == b)
  {
    if a < b then b else a
  }
}
