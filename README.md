# UdonStuff behaviours in Dafny

A model of the decision logic in six Unity/VRChat behaviours and editor
tools, with proofs of what each one promises:

- **Sliding door** (`DoorLogic.dfy`, `SlidingDoor.dfy`): a four-state cycle
  Closed → Opening → Open → Closing → Closed. Each frame advances a timer,
  the progress `clamp01(timer / openCloseTime)` interpolates the two leaves,
  and the animation commits to its final state on the frame where the
  progress reaches 1. `DoorLogic` states the machine as pure functions over a
  door value; the `SlidingDoor` class performs the same steps on its fields,
  each method proved to produce what the function of the same name computes.
  The lemmas show that requests during an animation are ignored, that
  animations complete with both leaves exactly on their target poses, and
  that the leaves stay on the straight line of the current animation in
  every reachable state (continuity).
- **Keypad relay** (`KeypadToggle.dfy`): granted, closed and additional-passcode
  events switch an array of nullable target objects, falling back to the
  behaviour's own object when there are no targets. The passcode search is a
  loop proved against a function that picks the first matching position or
  else the number itself as a position.
- **Pickup placement lock** (`PickupPlacementLock.dfy`): a pickup that is
  frozen while it rests near its spawn pose, free while held, and snapped
  back on drop (always, or only within a threshold).
- **Light-bake snapshot** (`AutoDisable.dfy`, `AutoDisableEditor.dfy`): when a
  bake starts, the objects whose AutoDisable component asks for it are
  recorded and switched on; when it completes they are switched back and the
  record is cleared. The start loop is proved against a fold over the
  components; the round trip restores every flagged object.
- **Build snapshot** (`AutoDisableBuildProcessor.dfy`): an edge detector on
  "a player build is running" saves the marked objects' flags keyed by
  `scene:root/child/.../name` on the rising edge and restores them on the
  falling edge. The id builder is proved to join the root-first names with
  slashes; a build round trip restores every object when ids tell objects
  apart, and a name containing a slash is shown to make two ids collide.
- **Kaiser mipmap tool** (`TextureRules.dfy`, `SetKaiser.dfy`): the rule that
  decides whether a texture importer still needs the Kaiser (or, for normal
  maps, Box) filter and the streaming flag, the writes that apply it, the
  import-time hook, the filter-name and format labels, and the editor window
  with its texture list and its mouse and keyboard selection.

`Wrappers.dfy` holds an `Option` type, `Seqs.dfy` sequence helpers
(`IndexOf`, an order-keeping `Filter`, a split at the first separator), and
`Engine.dfy` plain-value stand-ins for the engine types: vectors as triples
of reals, `Mathf.Clamp01`, `Vector3.Lerp`, transforms as name/parent
records, and game objects whose only mutable state is their active flag.

`SlidingDoor/SlidingDoor.cs` has no reversal, occupancy count, lock or
request queue: requests during an animation are dropped, and the model
follows it.

## Model

| member | source | states |
|---|---|---|
| Engine.Clamp01 | SlidingDoor/SlidingDoor.cs:105 | the progress lies in [0, 1], is the value itself inside it, and is 1 (0) exactly when the value is at least 1 (at most 0) |
| Engine.Lerp | SlidingDoor/SlidingDoor.cs:106-107 | interpolation gives the start pose at progress 0 or below and the target pose at 1 or above |
| Engine.LerpOfClamped | SlidingDoor/SlidingDoor.cs:105-107 | clamping the factor before Lerp changes nothing, since Lerp clamps on its own |
| DoorLogic.Progress | SlidingDoor/SlidingDoor.cs:105 | with a positive duration the progress t is in [0, 1], t = 1 exactly when the timer has reached the duration, and t = 0 for a non-positive timer |
| DoorLogic.ProgressBounds | SlidingDoor/SlidingDoor.cs:105 | timer / duration reaches 1 exactly when the timer reaches the duration |
| DoorLogic.UpdateDoorPosition | SlidingDoor/SlidingDoor.cs:102-113 | one tick adds the frame time to the timer, keeps the state or commits to the final state, commits exactly when the timer reaches the duration, and a commit leaves both leaves on their targets |
| DoorLogic.OpeningOnlyFromClosed | SlidingDoor/SlidingDoor.cs:47-74 | Opening is entered only from Closed, and only by ToggleDoor or Interact |
| DoorLogic.ClosingOnlyFromOpen | SlidingDoor/SlidingDoor.cs:47-74 | Closing is entered only from Open, and only by ToggleDoor or the keypad's closed event |
| DoorLogic.NoReversal | SlidingDoor/SlidingDoor.cs:47-74 | every request while Opening or Closing leaves the door unchanged: an animation is never reversed |
| DoorLogic.StartResetsTimer | SlidingDoor/SlidingDoor.cs:90-100 | a request that changes the door starts the opposite animation with the timer at 0 and the leaves where they were |
| DoorLogic.UpdateAtRest | SlidingDoor/SlidingDoor.cs:76-88 | a frame changes nothing (state, timer, leaves) while Open or Closed |
| DoorLogic.AnimationFrame | SlidingDoor/SlidingDoor.cs:76-113 | during an animation the timer never decreases, the leaves sit at Lerp(start, target, t) for t in [0, 1], and the door becomes Open (Closed) exactly on the frame where t reaches 1, with the leaves exactly on their target poses |
| DoorLogic.InitialOnTrack | SlidingDoor/SlidingDoor.cs:37-44 | the door starts Closed with its leaves on the closed poses |
| DoorLogic.StepOnTrack | SlidingDoor/SlidingDoor.cs:47-113 | every event keeps the leaves on the closed/open poses at rest and on the line of the current animation while moving: each animation starts where the previous one ended |
| DoorLogic.RunOnTrack | SlidingDoor/SlidingDoor.cs:47-113 | continuity holds after any sequence of events whose frame times are non-negative |
| DoorLogic.TicksAtRest | SlidingDoor/SlidingDoor.cs:76-88 | any number of frames leaves a resting door unchanged |
| DoorLogic.OpeningCompletes | SlidingDoor/SlidingDoor.cs:76-113 | an opening door whose frames cover the duration ends Open with both leaves exactly at the open poses |
| DoorLogic.ClosingCompletes | SlidingDoor/SlidingDoor.cs:76-113 | a closing door whose frames cover the duration ends Closed with both leaves exactly at the closed poses |
| SlidingDoor.SlidingDoor.Start | SlidingDoor/SlidingDoor.cs:39-44 | the leaves' current positions become the closed poses and the door starts Closed and on track |
| SlidingDoor.SlidingDoor.ToggleDoor | SlidingDoor/SlidingDoor.cs:47-57 | the new door is DoorLogic.ToggleDoor of the old one, and stays on track |
| SlidingDoor.SlidingDoor.KeypadClosed | SlidingDoor/SlidingDoor.cs:60-66 | the new door is DoorLogic.KeypadClosed of the old one, and stays on track |
| SlidingDoor.SlidingDoor.Interact | SlidingDoor/SlidingDoor.cs:68-74 | the new door is DoorLogic.Interact of the old one, and stays on track |
| SlidingDoor.SlidingDoor.Update | SlidingDoor/SlidingDoor.cs:76-88 | the new door is DoorLogic.Update of the old one for the frame time, and stays on track |
| SlidingDoor.SlidingDoor.StartOpening | SlidingDoor/SlidingDoor.cs:90-94 | state Opening, timer 0, leaves untouched |
| SlidingDoor.SlidingDoor.StartClosing | SlidingDoor/SlidingDoor.cs:96-100 | state Closing, timer 0, leaves untouched |
| SlidingDoor.SlidingDoor.UpdateDoorPosition | SlidingDoor/SlidingDoor.cs:102-113 | the new door is DoorLogic.UpdateDoorPosition of the old one |
| KeypadToggle.MatchedIndex | KeypadToggle/KeypadToggle.cs:86-102 | the first position holding the number when there is one; otherwise the number itself when it is a valid position, else -1 |
| KeypadToggle.MatchPasscode | KeypadToggle/KeypadToggle.cs:86-102 | the search loop with its break and its fallback returns MatchedIndex |
| KeypadToggle.KeypadToggle.SetTargetsActive | KeypadToggle/KeypadToggle.cs:23-52 | with targets, every non-null target takes the flag and the own object is untouched unless it is a target; with none, the own object is activated on true and nothing changes on false |
| KeypadToggle.KeypadToggle.KeypadGranted | KeypadToggle/KeypadToggle.cs:55-67 | nothing changes when granted events are disabled; otherwise every target (or, with none, the own object) is activated |
| KeypadToggle.KeypadToggle.KeypadAdditionalPasscode | KeypadToggle/KeypadToggle.cs:74-126 | without passcodes it is a granted event; otherwise no match changes nothing, a match activates only its own filled slot, else all targets, else the own object, ignores the disable flag, and never deactivates anything |
| KeypadToggle.KeypadToggle.KeypadClosed | KeypadToggle/KeypadToggle.cs:133-137 | every non-null target is deactivated; with no targets nothing changes |
| PickupPlacementLock.DropThenUpdateAgree | PickupPlacementLock/PickupPlacementLock.cs:35-97 | with a non-negative threshold, the constraints a drop leaves are the ones the following frames keep |
| PickupPlacementLock.PickupPlacementLock.Start | PickupPlacementLock/PickupPlacementLock.cs:20-33 | the current pose becomes the default pose, a rigidbody is frozen, and the pickup is not held |
| PickupPlacementLock.PickupPlacementLock.Update | PickupPlacementLock/PickupPlacementLock.cs:35-52 | while held nothing changes; otherwise the rigidbody is frozen exactly when the distance is within the threshold, and free beyond it |
| PickupPlacementLock.PickupPlacementLock.OnPickup | PickupPlacementLock/PickupPlacementLock.cs:54-63 | the pickup is held, a rigidbody is freed, and the pose is kept |
| PickupPlacementLock.PickupPlacementLock.OnDrop | PickupPlacementLock/PickupPlacementLock.cs:65-97 | the pickup is not held; it snaps back to the default pose and freezes when snapping is unconditional or the distance is within the threshold, and otherwise keeps its pose with the rigidbody free; without a rigidbody the pose still snaps |
| AutoDisableEditor.BakeStart | AutoDisable/AutoDisableEditor.cs:18-30 | the bake-start fold touches only flags of objects already known to it |
| AutoDisableEditor.BakeStartEntries | AutoDisable/AutoDisableEditor.cs:22-28 | entries are added exactly for the flagged components; other entries keep their values |
| AutoDisableEditor.BakeStartFlags | AutoDisable/AutoDisableEditor.cs:22-28 | afterwards an object is active exactly when it was before or a flagged component sits on it |
| AutoDisableEditor.BakeStartRecords | AutoDisable/AutoDisableEditor.cs:24-27 | a flagged component records its object's earlier flag, or true when an earlier flagged component on the same object had already switched it on |
| AutoDisableEditor.BakeStartRecordsActive | AutoDisable/AutoDisableEditor.cs:24-27 | once every flagged object is active, a start records true for every flagged component: a second start without completion overwrites the saved flags with true |
| AutoDisableEditor.BakeStartFromEmpty | AutoDisable/AutoDisableEditor.cs:18-30 | from an empty map with one flagged component per object, the map holds exactly the flagged components, each with its object's earlier flag |
| AutoDisableEditor.AutoDisableEditor.constructor | AutoDisable/AutoDisableEditor.cs:9 | the map starts empty |
| AutoDisableEditor.AutoDisableEditor.OnBakeStarted | AutoDisable/AutoDisableEditor.cs:18-30 | the map and the objects' flags become what BakeStart computes from the old ones; only flagged components' objects change |
| AutoDisableEditor.AutoDisableEditor.OnBakeCompleted | AutoDisable/AutoDisableEditor.cs:32-42 | the map ends empty; every switched object carries the flag recorded for one of its live components, and the recorded flag itself when its live components agree |
| AutoDisableEditor.AutoDisableEditor.CheckBakeStatus | AutoDisable/AutoDisableEditor.cs:45-51 | with a bake running or an empty map nothing changes; otherwise it completes the bake, and it always leaves the map empty when no bake runs, so an immediate second call is a no-op |
| AutoDisableEditor.AutoDisableEditor.BakeRoundTrip | AutoDisable/AutoDisableEditor.cs:18-42 | start then completion, from an empty map with live components and no object carrying two flagged components, gives every flagged object back its flag from before the bake (with two flagged components on one object the round trip can fail, see Findings) |
| AutoDisableEditor.RestoreInOrder | AutoDisable/AutoDisableEditor.cs:32-42 | completion visiting the recorded components in a given order: objects no visited component sits on keep their flags, and the last visited component on an object decides its flag |
| AutoDisableEditor.SiblingsBreakRoundTrip | AutoDisable/AutoDisableEditor.cs:22-27 | an inactive object with two flagged components records false then true, and a completion in insertion order leaves it active |
| AutoDisableEditor.RecordFlagsEntries | AutoDisable/AutoDisableEditor.cs:22-28 | the corrected recording pass adds an entry for each flagged component holding its object's flag from before the start, and keeps the other entries |
| AutoDisableEditor.RecordFlagsFromEmpty | AutoDisable/AutoDisableEditor.cs:22-28 | from an empty map the corrected pass holds exactly the flagged components, and components sharing an object hold the same flag |
| AutoDisableEditor.AutoDisableEditor.RecordPass | AutoDisable/AutoDisableEditor.cs:22-28 | the corrected recording loop, switching nothing, yields the current map with each flagged component's current object flag added |
| AutoDisableEditor.AutoDisableEditor.OnBakeStartedRecordingFirst | AutoDisable/AutoDisableEditor.cs:18-30 | the corrected start records every flagged component's flag before switching anything, then switches on exactly the objects the original start switches on |
| AutoDisableEditor.AutoDisableEditor.BakeRoundTripRecordingFirst | AutoDisable/AutoDisableEditor.cs:18-42 | with the corrected start, start then completion from an empty map with live components restores every flagged object, also when an object carries several flagged components |
| AutoDisableEditor.AutoDisableEditor.RestartedBake | AutoDisable/AutoDisableEditor.cs:18-30 | after two starts without a completion every flagged component's entry is true |
| AutoDisableBuildProcessor.PrependAncestorsJoins | AutoDisable/AutoDisableBuildProcessor.cs:129-133 | walking up from a parent prefixes the root-first ancestor names joined by slashes |
| AutoDisableBuildProcessor.GetObjectPathIsLineage | AutoDisable/AutoDisableBuildProcessor.cs:124-136 | the object path is the names from the root down to the object, joined by slashes, ending with the object's own name |
| AutoDisableBuildProcessor.GetObjectIdSplits | AutoDisable/AutoDisableBuildProcessor.cs:117-122 | cut at its first colon, an id gives back the scene path and the object path when the scene path has no colon |
| AutoDisableBuildProcessor.PathsCanCollide | AutoDisable/AutoDisableBuildProcessor.cs:124-136 | a root named "x/y" and a child "y" of a root "x" in one scene get the same id |
| AutoDisableBuildProcessor.SaveKeys | AutoDisable/AutoDisableBuildProcessor.cs:59-71 | the saved ids are exactly those of the live components' objects |
| AutoDisableBuildProcessor.SaveLastWins | AutoDisable/AutoDisableBuildProcessor.cs:62-71 | on an id collision the later component's flag is the one saved |
| AutoDisableBuildProcessor.SaveFrom | AutoDisable/AutoDisableBuildProcessor.cs:62-71 | every saved flag is the flag of some live component with that id |
| AutoDisableBuildProcessor.SaveAgreeing | AutoDisable/AutoDisableBuildProcessor.cs:62-71 | an id whose live components all carry one flag is saved with that flag |
| AutoDisableBuildProcessor.BuildProcessor.constructor | AutoDisable/AutoDisableBuildProcessor.cs:12-15 | empty map, not initialized, not building, and the cache file as a previous session left it (it survives domain reloads) |
| AutoDisableBuildProcessor.BuildProcessor.SaveCurrentStates | AutoDisable/AutoDisableBuildProcessor.cs:57-80 | the map is cleared and refilled with the live components' flags by id, and written to the cache file unless empty |
| AutoDisableBuildProcessor.BuildProcessor.RestoreStatesIfNeeded | AutoDisable/AutoDisableBuildProcessor.cs:82-115 | without the cache file nothing changes; with it, its map becomes the map, every live component whose id is in it gets the stored flag, objects with other ids keep theirs, and the file is deleted |
| AutoDisableBuildProcessor.BuildProcessor.Initialize | AutoDisable/AutoDisableBuildProcessor.cs:23-33 | the first call saves the states and writes the cache file unless the map is empty; every later call does nothing |
| AutoDisableBuildProcessor.BuildProcessor.CheckBuildStatus | AutoDisable/AutoDisableBuildProcessor.cs:36-55 | saves only on a false-to-true edge, restores only on a true-to-false edge, changes nothing otherwise, and always remembers the current flag |
| AutoDisableBuildProcessor.BuildProcessor.BuildRoundTrip | AutoDisable/AutoDisableBuildProcessor.cs:36-115 | a build from rising to falling edge, whatever it switches, leaves every object as before it, given live components whose ids tell their objects apart |
| TextureRules.ProcessingTestsAgree | SetKaiser/Editor/SetKaiser.cs:801-825 | the list's "needs processing" is exactly the negation of the counter's and the apply's "already processed", equals the two helper tests combined, and "processed" means the desired filter and the streaming setting |
| TextureRules.ApplySettings | SetKaiser/Editor/SetKaiser.cs:909-925 | the writes leave an importer that counts as processed, keep its type and mipmap flag, and change nothing on an already processed one |
| TextureRules.ApplyIdempotent | SetKaiser/Editor/SetKaiser.cs:909-925 | applying twice is applying once |
| TextureRules.GetSimplifiedFilterName | SetKaiser/Editor/SetKaiser.cs:1023-1039 | a name ending in "Filter" loses exactly that suffix, any other name is kept (Kaiser gives "Kaiser", Box gives "Box") |
| TextureRules.FormatLabel | SetKaiser/Editor/SetKaiser.cs:1083-1125 | a format label never holds a line break, which is what `FormatInfoLines` needs; the format-to-label mapping itself is the body |
| TextureRules.TypeLabel | SetKaiser/Editor/SetKaiser.cs:1070-1080 | a type label is non-empty and holds no line break, which is what `FormatInfoLines` needs; the type-to-label mapping itself is the body |
| TextureRules.GetTextureFormatInfo | SetKaiser/Editor/SetKaiser.cs:1064-1132 | without an importer the text is "Unknown" |
| TextureRules.FormatInfoLines | SetKaiser/Editor/SetKaiser.cs:1127-1131 | with an importer the text reads back as the format line (when the format is named) and the type line |
| TextureRules.OnPreprocessTexture | SetKaiser/Editor/SetKaiser.cs:1138-1174 | nothing changes unless auto-apply is on, mipmaps are enabled and the asset is new; then normal maps get Box exactly when the Box setting is on, everything else Kaiser, and streaming takes the streaming setting |
| TextureRules.PreprocessAgreesWithApply | SetKaiser/Editor/SetKaiser.cs:1154-1169 | when the hook acts it writes what the window's apply writes for the same settings, so the texture counts as processed |
| TextureRules.HookIgnoresWindowToggles | SetKaiser/Editor/SetKaiser.cs:104-106 | with the preferences at their defaults and the window set to Kaiser for normal maps, a new normal map gets Box and is listed as needing processing |
| TextureRules.ListedTextures | SetKaiser/Editor/SetKaiser.cs:781-838 | the list holds only mipmapped textures; with "show already processed" all of them, otherwise exactly the lightmaps and those needing processing |
| TextureRules.NothingToProcess | SetKaiser/Editor/SetKaiser.cs:900-906 | no path is left to process exactly when every mipmapped importer among the paths is already processed |
| TextureRules.ListedKeepsWork | SetKaiser/Editor/SetKaiser.cs:571-597 | counting and applying on the listed paths finds the same paths as on all scanned ones, whatever the toggle |
| SetKaiser.SetKaiser.constructor | SetKaiser/Editor/SetKaiser.cs:49-74 | the texture settings come from the preferences and nothing is scanned or selected |
| SetKaiser.SetKaiser.ListedPaths | SetKaiser/Editor/SetKaiser.cs:781-838 | the filtering loop yields TextureRules.Listed of all scanned paths |
| SetKaiser.SetKaiser.FilterTextures | SetKaiser/Editor/SetKaiser.cs:781-838 | the list becomes TextureRules.Listed of all scanned paths |
| SetKaiser.SetKaiser.SetShowAlreadyProcessed | SetKaiser/Editor/SetKaiser.cs:294-313 | a changed toggle refilters and clears selection, anchor and focus; an unchanged one changes nothing |
| SetKaiser.SetKaiser.SetTextureSettingsAsWritten | SetKaiser/Editor/SetKaiser.cs:259-281 | the toggles change the settings but not the preferences |
| SetKaiser.SetKaiser.SetTextureSettings | SetKaiser/Editor/SetKaiser.cs:259-281 | the toggles change the settings and save them to the preferences |
| SetKaiser.SetKaiser.ImportNewTexture | SetKaiser/Editor/SetKaiser.cs:1138-1174 | the hook's result is stored; when the hook acts (auto-apply on, mipmaps enabled, no file at the asset path) and the preferences equal the window's settings, the texture arrives processed |
| SetKaiser.SetKaiser.CollectSupported | SetKaiser/Editor/SetKaiser.cs:759-767 | the scan keeps, in order, exactly the found paths whose importer supports Kaiser mipmaps |
| SetKaiser.SetKaiser.ScanTextures | SetKaiser/Editor/SetKaiser.cs:722-778 | all scanned paths become the supported found ones, the list is refiltered, and selection, anchor and focus are reset |
| SetKaiser.SetKaiser.CountTexturesToUpdate | SetKaiser/Editor/SetKaiser.cs:989-1020 | the count is the number of paths with a mipmapped importer not yet processed |
| SetKaiser.SetKaiser.SelectPathsToProcess | SetKaiser/Editor/SetKaiser.cs:864-897 | the first pass keeps, in order, exactly the paths needing processing |
| SetKaiser.SetKaiser.WriteSettings | SetKaiser/Editor/SetKaiser.cs:909-936 | every given path's importer gets ApplySettings, others are untouched |
| SetKaiser.SetKaiser.ApplyMipmapFiltering | SetKaiser/Editor/SetKaiser.cs:857-945 | with nothing to process nothing changes; otherwise exactly the paths needing it get the desired settings and the window rescans; afterwards no path needs processing, so a second apply takes the early return |
| SetKaiser.SetKaiser.AddRange | SetKaiser/Editor/SetKaiser.cs:514-518 | the rows between the two indices, inclusive, are added and nothing is removed |
| SetKaiser.SetKaiser.MouseDown | SetKaiser/Editor/SetKaiser.cs:491-540 | ctrl-click toggles the row, shift-click with an anchor adds every row between the anchor and the clicked row, and a plain click starts a drag and selects the row alone (added with alt); selection and anchor stay listed rows |
| SetKaiser.SetKaiser.MouseDragOver | SetKaiser/Editor/SetKaiser.cs:466-489 | during a drag the rows between the drag start and the row are added, to an emptied selection unless ctrl or shift is held |
| SetKaiser.SetKaiser.MouseUp | SetKaiser/Editor/SetKaiser.cs:338-342 | a drag ends |
| SetKaiser.SetKaiser.HandleKeyboardNavigation | SetKaiser/Editor/SetKaiser.cs:624-700 | with rows listed the focus starts at the current focus, a selected row or the top, moves one row when an arrow can move it, stays in range, and the selection becomes exactly the focused row, or only grows with shift |

## Left out

- IMGUI drawing, styles, dialogs, tooltips, `Repaint`, `Event.Use` and every `Debug.Log` in the window and the hooks; `EnsureItemVisible` (scroll arithmetic in floats).
- The scene traversal, `IsIncludedInBuild` and the asset search in `ScanTextures`: they are engine queries, and the scan receives their combined result as `found`. `AssetDatabase.ImportAsset` and its exception path are left out; the imported-texture count it feeds goes only to a log line.
- `Selection.objects` synchronisation and the double-click timer in the window.
- The window's auto-rescan and auto-apply toggles and their `EditorPrefs` writes; the hook's auto-apply test is its `autoApply` parameter, and its "file already exists" test is the `fileExists` parameter of `TextureRules.OnPreprocessTexture` and `SetKaiser.SetKaiser.ImportNewTexture`.
- SetKaiser.SetKaiser.ImportNewTexture: "arrives processed" is promised only when the hook acts. The hook tests `File.Exists` on the path of the asset being imported, whose file is normally already on disk during an import, so in practice the hook probably never acts; the model leaves that test as a parameter rather than fixing it to true.
- The post-processor's `OnPostprocessTexture`, which only asks an open window to rescan later.
- The no-argument `ApplyMipmapFiltering` overload, which nothing calls.
- SetKaiser.SetKaiser.MouseDragOver: requires the drag start to be a listed row; a rescan during a drag can leave it stale, and the source then throws an index exception, which is not modelled.
- TextureRules.MipFilter: the engine names only Box and Kaiser; any other value is kept with the name its `ToString` gives.
- AutoDisableEditor.AutoDisableEditor.OnBakeCompleted: when two live components on one object recorded different flags, the object ends with one of them, because the dictionary's iteration order is not modelled; `AutoDisableEditor.RestoreInOrder` states the insertion-order completion for the counterexample.
- AutoDisableBuildProcessor.BuildProcessor.RestoreStatesIfNeeded: the cache file is a field holding the map it was written with, and the failed-read path is not modelled. `JsonUtility` does not serialise `Dictionary` fields, so the source's cache file (written at AutoDisable/AutoDisableBuildProcessor.cs:76-77) probably holds no states. The read at line 89 then gives either the initialised empty map of line 141 or a null map, assigned to `objectStates` at line 90. With an empty map nothing is restored, nothing throws, and the file is deleted at line 107. With a null map the `TryGetValue` at line 98 throws for the first live component; the catch at lines 110-113 swallows it, the `File.Delete` at line 107 is skipped so the file stays on disk, and `objectStates` stays null, so the next `SaveCurrentStates` throws at its `Clear` (line 59) outside any `try`, stopping `CheckBuildStatus` before line 54 updates `wasBuilding`. Either way the source's build restore probably never happens; the lossless cache of the model describes the evidently intended behaviour, and neither JSON case was confirmed against the engine.
- AutoDisableBuildProcessor.BuildProcessor.Initialize: the save that the source schedules for a later editor update runs at once.
- AutoDisableBuildProcessor.RunBuild stands in for the build between the two edges: it may switch the objects of live components and nothing else.
- `Object.FindObjectsOfType` and `Resources.FindObjectsOfTypeAll` are parameters (the component sequences); a destroyed component is one that compares equal to null.
- AutoDisable.cs's engine lifecycle hooks (`Start`, `OnValidate`) and its renderer call.
- `DoorProximitySensor.cs` (a trigger-volume adapter that calls door methods `SlidingDoor.cs` does not define) and the two inspector editors.
- KeypadToggle's `HandleCorrectCode`, `_DelayedDisableObjects`, `DisableObjects` and `EnableObjects`: nothing calls them, and they depend on the delayed-event scheduler. The `External*` methods are aliases of the modelled ones.
- A null target or passcode array behaves like an empty one at every test in KeypadToggle.cs, so only empty arrays are modelled.
- Floating point: positions, times and distances are reals. `Time.deltaTime` and `Vector3.Distance` are parameters; the door requires `openCloseTime > 0` and non-negative frame times.
- Quaternion rotations are opaque records, only copied.

## Findings

| source | as written | input that shows it | evidently intended | confidence | as-written member | corrected member |
|---|---|---|---|---|---|---|
| SetKaiser/Editor/SetKaiser.cs:259-281 | the live normal-map and streaming toggles never write their preference keys (the only write sits in a commented-out block), while the import hook reads only the preferences (lines 104-106) | window set to Kaiser for normal maps, preferences unset, auto-apply on, a new normal map imported: the hook gives it Box and the window lists it as needing processing | the toggles save their keys, as the defined key constants and the OnEnable loads suggest, so the hook applies the window's settings | medium; not executed; the scenario needs the hook to act, which its `File.Exists` test on the imported asset probably prevents | TextureRules.HookIgnoresWindowToggles | SetKaiser.SetKaiser.SetTextureSettings |
| AutoDisable/AutoDisableEditor.cs:24-27, 34-40 | a flagged component records its object's current flag and switches the object on at once, so a second flagged component on the same object records true; completion restores entries in dictionary order | an inactive object carrying two AutoDisable components, both flagged (nothing forbids two, and inactive objects are found): the records are false then true, and restoring in insertion order leaves the object active after the bake | each flagged object gets back the flag it had before the bake, whatever number of flagged components it carries | medium; not executed | AutoDisableEditor.SiblingsBreakRoundTrip | AutoDisableEditor.AutoDisableEditor.BakeRoundTripRecordingFirst |
