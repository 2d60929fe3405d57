/**
 * The build hook. Each editor update it compares "a player build is running"
 * with the value it saw last time: on a rising edge it saves the active flag
 * of every object carrying an AutoDisable component, keyed by an id made of
 * the object's scene path and its path in the hierarchy; on a falling edge
 * it puts the saved flags back. The saved map also goes to a cache file,
 * which a restore reads and deletes; the file is a field here holding the
 * map it was written with.
 */
module AutoDisableBuildProcessor {
  import opened Wrappers
  import opened Engine
  import opened AutoDisable
  import Seqs

  /** The loop of GetObjectPath: prefix `path` with each ancestor's name, nearest ancestor first. */
  function PrependAncestors(path: string, parent: Option<Transform>): string
    decreases parent
  {
    match parent
    case None => path
    case Some(p) => PrependAncestors(p.name + "/" + path, p.parent)
  }

  /** GetObjectPath: the object's name behind its ancestors' names. */
  function GetObjectPath(obj: GameObject): string {
    PrependAncestors(obj.transform.name, obj.transform.parent)
  }

  /** GetObjectId: the scene path and the object path, separated by a colon. */
  function GetObjectId(obj: GameObject): string {
    obj.scenePath + ":" + GetObjectPath(obj)
  }

  /** The names from the root of the hierarchy down to `t`. */
  function Lineage(t: Transform): (r: seq<string>)
    ensures |r| >= 1 && r[|r| - 1] == t.name
    decreases t
  {
    match t.parent
    case None => [t.name]
    case Some(p) => Lineage(p) + [t.name]
  }

  /** The names joined with slashes. */
  function JoinPath(names: seq<string>): string
    decreases |names|
  {
    if |names| == 0 then ""
    else if |names| == 1 then names[0]
    else JoinPath(names[..|names| - 1]) + "/" + names[|names| - 1]
  }

  /** Walking up from a parent `p` yields the root-first names down to `p`, then the path so far. */
  lemma {:induction false} PrependAncestorsJoins(path: string, p: Transform)
    ensures PrependAncestors(path, Some(p)) == JoinPath(Lineage(p)) + "/" + path
    decreases p
  {
    match p.parent
    case None =>
    case Some(q) =>
      calc {
        PrependAncestors(path, Some(p));
        PrependAncestors(p.name + "/" + path, Some(q));
        { PrependAncestorsJoins(p.name + "/" + path, q); }
        JoinPath(Lineage(q)) + "/" + (p.name + "/" + path);
        (JoinPath(Lineage(q)) + "/" + p.name) + "/" + path;
        { assert (Lineage(q) + [p.name])[..|Lineage(q)|] == Lineage(q); }
        JoinPath(Lineage(q) + [p.name]) + "/" + path;
      }
  }

  /** GetObjectPath is the root-first names of the object's hierarchy joined by slashes, ending with its own name. */
  lemma GetObjectPathIsLineage(obj: GameObject)
    ensures GetObjectPath(obj) == JoinPath(Lineage(obj.transform))
  {
    match obj.transform.parent
    case None =>
    case Some(p) =>
      PrependAncestorsJoins(obj.transform.name, p);
      assert (Lineage(p) + [obj.transform.name])[..|Lineage(p)|] == Lineage(p);
  }

  /** An id gives back the scene path and the object path, cut at its first colon, when the scene path has no colon. */
  lemma GetObjectIdSplits(obj: GameObject)
    requires ':' !in obj.scenePath
    ensures Seqs.SplitFirst(GetObjectId(obj), ':') == (obj.scenePath, GetObjectPath(obj))
  {
    Seqs.SplitFirstJoined(obj.scenePath, ':', GetObjectPath(obj));
  }

  /** A name containing a slash makes two different hierarchies share a path, and so an id. */
  lemma PathsCanCollide(scene: string, a: GameObject, b: GameObject)
    requires a.scenePath == scene && a.transform == Transform("x/y", None)
    requires b.scenePath == scene && b.transform == Transform("y", Some(Transform("x", None)))
    ensures a.transform != b.transform && GetObjectId(a) == GetObjectId(b)
  {
    assert GetObjectPath(b) == "x" + "/" + "y";
  }

  /** What the save sees of one component: whether it exists, its object's id, its object's flag. */
  datatype Entry = Entry(live: bool, id: string, active: bool)

  /** The save loop on values: entries of live components in order, a later one overwriting an earlier id. */
  function Save(entries: seq<Entry>): map<string, bool>
    decreases |entries|
  {
    if entries == [] then map[]
    else
      var n := |entries| - 1;
      var e := entries[n];
      if e.live then Save(entries[..n])[e.id := e.active] else Save(entries[..n])
  }

  /** The saved ids are exactly those of the live entries. */
  lemma {:induction false} SaveKeys(entries: seq<Entry>)
    ensures Save(entries).Keys == set e | e in entries && e.live :: e.id
    decreases |entries|
  {
    if entries != [] {
      var n := |entries| - 1;
      SaveKeys(entries[..n]);
      assert entries == entries[..n] + [entries[n]];
    }
  }

  /** A live entry with no later live entry of the same id has its flag saved. */
  lemma {:induction false} SaveLastWins(entries: seq<Entry>, i: int)
    requires 0 <= i < |entries| && entries[i].live
    requires forall j :: i < j < |entries| && entries[j].live ==> entries[j].id != entries[i].id
    ensures entries[i].id in Save(entries) && Save(entries)[entries[i].id] == entries[i].active
    decreases |entries|
  {
    var n := |entries| - 1;
    if i < n {
      SaveLastWins(entries[..n], i);
    }
  }

  /** Every saved flag is the flag of some live entry with that id. */
  lemma {:induction false} SaveFrom(entries: seq<Entry>)
    ensures forall k :: k in Save(entries) ==>
      exists j :: 0 <= j < |entries| && entries[j].live && entries[j].id == k && entries[j].active == Save(entries)[k]
    decreases |entries|
  {
    if entries != [] {
      var n := |entries| - 1;
      SaveFrom(entries[..n]);
      forall k | k in Save(entries)
        ensures exists j :: 0 <= j < |entries| && entries[j].live && entries[j].id == k && entries[j].active == Save(entries)[k]
      {
        if !(entries[n].live && entries[n].id == k) {
          assert k in Save(entries[..n]);
          var j :| 0 <= j < n && entries[..n][j].live && entries[..n][j].id == k && entries[..n][j].active == Save(entries[..n])[k];
          assert entries[j] == entries[..n][j];
        }
      }
    }
  }

  /** An id whose live entries all carry the same flag is saved with that flag. */
  lemma {:induction false} SaveAgreeing(entries: seq<Entry>, id: string, active: bool)
    requires exists i :: 0 <= i < |entries| && entries[i].live && entries[i].id == id
    requires forall j :: 0 <= j < |entries| && entries[j].live && entries[j].id == id ==> entries[j].active == active
    ensures id in Save(entries) && Save(entries)[id] == active
    decreases |entries|
  {
    var n := |entries| - 1;
    if !(entries[n].live && entries[n].id == id) {
      var i :| 0 <= i < |entries| && entries[i].live && entries[i].id == id;
      assert entries[..n][i] == entries[i];
      SaveAgreeing(entries[..n], id, active);
    }
  }

  /** The entries the save reads from the components. */
  ghost function Snapshot(scripts: seq<AutoDisable>): (r: seq<Entry>)
    reads scripts, Objects(scripts)
    ensures |r| == |scripts|
    ensures forall i :: 0 <= i < |scripts| ==>
      r[i] == Entry(!scripts[i].destroyed, GetObjectId(scripts[i].gameObject), scripts[i].gameObject.activeSelf)
    decreases |scripts|
  {
    if scripts == [] then []
    else
      var n := |scripts| - 1;
      var s := scripts[n];
      Snapshot(scripts[..n]) + [Entry(!s.destroyed, GetObjectId(s.gameObject), s.gameObject.activeSelf)]
  }

  /** The objects the components sit on. */
  ghost function Objects(scripts: seq<AutoDisable>): set<GameObject> {
    set s | s in scripts :: s.gameObject
  }

  /** The objects of the components that still exist. */
  ghost function LiveObjects(scripts: seq<AutoDisable>): set<GameObject>
    reads scripts
  {
    set s | s in scripts && !s.destroyed :: s.gameObject
  }

  /** A live component before position `n` sits on `g`. */
  ghost predicate LiveBefore(scripts: seq<AutoDisable>, n: int, g: GameObject)
    reads scripts
  {
    exists k :: 0 <= k < n && k < |scripts| && !scripts[k].destroyed && scripts[k].gameObject == g
  }

  /** Components with the same object id sit on the same object. */
  predicate IdsTellApart(scripts: seq<AutoDisable>) {
    forall i, j :: 0 <= i < |scripts| && 0 <= j < |scripts| && GetObjectId(scripts[i].gameObject) == GetObjectId(scripts[j].gameObject) ==>
      scripts[i].gameObject == scripts[j].gameObject
  }

  /**
   * The build itself, as far as the hook can tell: it may switch the
   * objects of the live components however it likes, and touches nothing else.
   */
  method RunBuild(scripts: seq<AutoDisable>, duringBuild: seq<bool>)
    modifies LiveObjects(scripts)
  {
    for i := 0 to if |duringBuild| < |scripts| then |duringBuild| else |scripts| {
      if !scripts[i].destroyed {
        scripts[i].gameObject.activeSelf := duringBuild[i];
      }
    }
  }

  class BuildProcessor {
    var objectStates: map<string, bool>
    var initialized: bool
    var wasBuilding: bool
    /** The state cache file: absent, or present with the map it was written with. */
    var stateCache: Option<map<string, bool>>

    /**
     * The static fields after a domain reload: an empty map, not initialized,
     * not building. The cache file outlives reloads, so `cache` is whatever a
     * previous save left on disk.
     */
    constructor (cache: Option<map<string, bool>>)
      ensures objectStates == map[] && !initialized && !wasBuilding && stateCache == cache
    {
      objectStates := map[];
      initialized := false;
      wasBuilding := false;
      stateCache := cache;
    }

    /**
     * SaveCurrentStates, given the AutoDisable components the scene search
     * returns: the map becomes the flags of the live components' objects, by
     * id (the last component with an id wins), and is written to the cache
     * file unless it is empty.
     */
    method SaveCurrentStates(scripts: seq<AutoDisable>)
      modifies this`objectStates, this`stateCache
      ensures objectStates == Save(old(Snapshot(scripts)))
      ensures stateCache == if |objectStates| > 0 then Some(objectStates) else old(stateCache)
    {
      ghost var before := Snapshot(scripts);
      objectStates := map[];
      for n := 0 to |scripts|
        invariant objectStates == Save(before[..n])
        invariant stateCache == old(stateCache)
      {
        var script := scripts[n];
        if !script.destroyed {
          var objectId := GetObjectId(script.gameObject);
          objectStates := objectStates[objectId := script.gameObject.activeSelf];
        }
        assert before[..n + 1][..n] == before[..n];
      }
      assert before[..|scripts|] == before;
      if |objectStates| > 0 {
        stateCache := Some(objectStates);
      }
    }

    /**
     * RestoreStatesIfNeeded: when the cache file exists, its map becomes the
     * map, every live component's object whose id is in it gets the stored
     * flag, other objects keep theirs, and the file is deleted. Without the
     * file nothing changes.
     */
    method RestoreStatesIfNeeded(scripts: seq<AutoDisable>)
      modifies this`objectStates, this`stateCache, LiveObjects(scripts)
      ensures old(stateCache) == None ==>
        objectStates == old(objectStates) && stateCache == None && unchanged(LiveObjects(scripts))
      ensures old(stateCache) != None ==>
        && objectStates == old(stateCache).value
        && stateCache == None
        && (forall i :: 0 <= i < |scripts| && !scripts[i].destroyed && GetObjectId(scripts[i].gameObject) in objectStates ==>
              scripts[i].gameObject.activeSelf == objectStates[GetObjectId(scripts[i].gameObject)])
        && (forall i :: 0 <= i < |scripts| && GetObjectId(scripts[i].gameObject) !in objectStates ==>
              scripts[i].gameObject.activeSelf == old(scripts[i].gameObject.activeSelf))
    {
      if stateCache.Some? {
        objectStates := stateCache.value;
        for n := 0 to |scripts|
          invariant objectStates == old(stateCache).value && stateCache == old(stateCache)
          invariant forall i :: 0 <= i < |scripts| ==>
            scripts[i].gameObject.activeSelf ==
              if GetObjectId(scripts[i].gameObject) in objectStates && LiveBefore(scripts, n, scripts[i].gameObject)
              then objectStates[GetObjectId(scripts[i].gameObject)]
              else old(scripts[i].gameObject.activeSelf)
        {
          var script := scripts[n];
          if !script.destroyed {
            var objectId := GetObjectId(script.gameObject);
            if objectId in objectStates {
              script.gameObject.activeSelf := objectStates[objectId];
            }
          }
        }
        stateCache := None;
      }
    }

    /** Initialize: the first call saves the states (and writes the cache file unless the map is empty); later calls do nothing. */
    method Initialize(scripts: seq<AutoDisable>)
      modifies this`initialized, this`objectStates, this`stateCache
      ensures initialized
      ensures old(initialized) ==> objectStates == old(objectStates) && stateCache == old(stateCache)
      ensures !old(initialized) ==> objectStates == Save(old(Snapshot(scripts)))
      ensures !old(initialized) ==> stateCache == if |objectStates| > 0 then Some(objectStates) else old(stateCache)
    {
      if initialized {
        return;
      }
      ghost var before := Snapshot(scripts);
      initialized := true;
      assert Snapshot(scripts) == before;
      SaveCurrentStates(scripts);
    }

    /**
     * CheckBuildStatus, each editor update; `isCurrentlyBuilding` is
     * BuildPipeline.isBuildingPlayer. A rising edge saves, a falling edge
     * restores, and the flag is remembered for the next update.
     */
    method CheckBuildStatus(isCurrentlyBuilding: bool, scripts: seq<AutoDisable>)
      modifies this`wasBuilding, this`objectStates, this`stateCache, LiveObjects(scripts)
      ensures wasBuilding == isCurrentlyBuilding
      ensures isCurrentlyBuilding == old(wasBuilding) ==>
        objectStates == old(objectStates) && stateCache == old(stateCache) && unchanged(LiveObjects(scripts))
      ensures isCurrentlyBuilding && !old(wasBuilding) ==>
        && objectStates == old(Save(Snapshot(scripts)))
        && stateCache == (if |objectStates| > 0 then Some(objectStates) else old(stateCache))
        && unchanged(LiveObjects(scripts))
      ensures !isCurrentlyBuilding && old(wasBuilding) ==>
        && stateCache == None
        && (old(stateCache) == None ==> objectStates == old(objectStates) && unchanged(LiveObjects(scripts)))
        && (old(stateCache) != None ==>
              && objectStates == old(stateCache).value
              && (forall i :: 0 <= i < |scripts| && !scripts[i].destroyed && GetObjectId(scripts[i].gameObject) in objectStates ==>
                    scripts[i].gameObject.activeSelf == objectStates[GetObjectId(scripts[i].gameObject)])
              && (forall i :: 0 <= i < |scripts| && GetObjectId(scripts[i].gameObject) !in objectStates ==>
                    scripts[i].gameObject.activeSelf == old(scripts[i].gameObject.activeSelf)))
    {
      if isCurrentlyBuilding && !wasBuilding {
        SaveCurrentStates(scripts);
      }
      if !isCurrentlyBuilding && wasBuilding {
        RestoreStatesIfNeeded(scripts);
      }
      wasBuilding := isCurrentlyBuilding;
    }

    /**
     * A build from start to end: the rising edge saves, the build switches
     * the objects however it likes (`duringBuild`), and the falling edge puts
     * every object back as it was before the build. This needs live
     * components whose ids tell their objects apart.
     */
    method BuildRoundTrip(scripts: seq<AutoDisable>, duringBuild: seq<bool>)
      requires !wasBuilding
      requires forall s :: s in scripts ==> !s.destroyed
      requires IdsTellApart(scripts)
      modifies this`wasBuilding, this`objectStates, this`stateCache, LiveObjects(scripts)
      ensures !wasBuilding
      ensures forall s :: s in scripts ==> s.gameObject.activeSelf == old(s.gameObject.activeSelf)
    {
      ghost var before := Snapshot(scripts);
      CheckBuildStatus(true, scripts);
      ghost var saved := objectStates;
      forall i | 0 <= i < |scripts|
        ensures before[i].id in saved && saved[before[i].id] == before[i].active
      {
        SaveAgreeing(before, before[i].id, before[i].active);
      }
      RunBuild(scripts, duringBuild);
      CheckBuildStatus(false, scripts);
      forall s | s in scripts
        ensures s.gameObject.activeSelf == old(s.gameObject.activeSelf)
      {
        var i :| 0 <= i < |scripts| && scripts[i] == s;
        assert before[i] == Entry(true, GetObjectId(s.gameObject), old(s.gameObject.activeSelf));
        assert GetObjectId(s.gameObject) in objectStates;
      }
    }
  }
}
