/**
 * The light-bake hook. When a bake starts it records the active flag of
 * every object whose AutoDisable component asks to be enabled during light
 * bakes, and activates it; when the bake completes (or the editor notices
 * that no bake is running any more) it puts the recorded flags back and
 * forgets them. The recorded flags live in `previousStates`, keyed by
 * component.
 */
module AutoDisableEditor {
  import opened Engine
  import opened AutoDisable

  /** Some component before position `n` that asks to be enabled during bakes sits on `g`. */
  predicate ActivatedBefore(components: seq<AutoDisable>, n: int, g: GameObject) {
    exists j :: 0 <= j < n && j < |components| && components[j].enableDuringLightBake && components[j].gameObject == g
  }

  /** Position `i` holds the last occurrence of its component before position `n`. */
  predicate LastBefore(components: seq<AutoDisable>, i: int, n: int)
    requires 0 <= i < |components|
  {
    forall j :: i < j < n && j < |components| ==> components[j] != components[i]
  }

  /** The components that ask to be enabled during light bakes. */
  ghost function Flagged(components: seq<AutoDisable>): set<AutoDisable> {
    set c | c in components && c.enableDuringLightBake
  }

  /** The objects those components sit on. */
  ghost function FlaggedObjects(components: seq<AutoDisable>): set<GameObject> {
    set c | c in components && c.enableDuringLightBake :: c.gameObject
  }

  /** The objects all the components sit on. */
  ghost function Objects(components: seq<AutoDisable>): set<GameObject> {
    set c | c in components :: c.gameObject
  }

  /** The active flags of those objects. */
  ghost function Flags(components: seq<AutoDisable>): (r: map<GameObject, bool>)
    reads Objects(components)
    ensures r.Keys == Objects(components)
  {
    map g | g in Objects(components) :: g.activeSelf
  }

  /**
   * The loop of OnBakeStarted on values: the recorded map and the objects'
   * active flags after visiting `components` in order, starting from `prev`
   * and `active`. A flagged component records its object's current flag and
   * then switches the object on.
   */
  function BakeStart(prev: map<AutoDisable, bool>, active: map<GameObject, bool>, components: seq<AutoDisable>)
    : (r: (map<AutoDisable, bool>, map<GameObject, bool>))
    requires forall i :: 0 <= i < |components| ==> components[i].gameObject in active
    ensures r.1.Keys == active.Keys
    decreases |components|
  {
    if components == [] then (prev, active)
    else
      var n := |components| - 1;
      var (p, a) := BakeStart(prev, active, components[..n]);
      var c := components[n];
      if c.enableDuringLightBake then (p[c := a[c.gameObject]], a[c.gameObject := true]) else (p, a)
  }

  /** Entries are added for the flagged components; the others' entries keep their values. */
  lemma {:induction false} BakeStartEntries(prev: map<AutoDisable, bool>, active: map<GameObject, bool>, components: seq<AutoDisable>)
    requires forall i :: 0 <= i < |components| ==> components[i].gameObject in active
    ensures var r := BakeStart(prev, active, components);
      && r.0.Keys == prev.Keys + Flagged(components)
      && forall c :: c in prev && c !in Flagged(components) ==> r.0[c] == prev[c]
    decreases |components|
  {
    if components != [] {
      var n := |components| - 1;
      BakeStartEntries(prev, active, components[..n]);
      assert components == components[..n] + [components[n]];
      assert Flagged(components) == Flagged(components[..n]) + (if components[n].enableDuringLightBake then {components[n]} else {});
    }
  }

  /** Afterwards an object is active exactly when it was before or a flagged component sits on it. */
  lemma {:induction false} BakeStartFlags(prev: map<AutoDisable, bool>, active: map<GameObject, bool>, components: seq<AutoDisable>)
    requires forall i :: 0 <= i < |components| ==> components[i].gameObject in active
    ensures forall g :: g in active ==>
      BakeStart(prev, active, components).1[g] == (active[g] || ActivatedBefore(components, |components|, g))
    decreases |components|
  {
    if components != [] {
      var n := |components| - 1;
      BakeStartFlags(prev, active, components[..n]);
      forall g | g in active
        ensures ActivatedBefore(components[..n], n, g) == ActivatedBefore(components, n, g)
      {
        if ActivatedBefore(components, n, g) {
          var j :| 0 <= j < n && components[j].enableDuringLightBake && components[j].gameObject == g;
          assert components[..n][j] == components[j];
        }
      }
      forall g | g in active
        ensures ActivatedBefore(components, n + 1, g) == (ActivatedBefore(components, n, g) ||
          (components[n].enableDuringLightBake && components[n].gameObject == g))
      {
      }
    }
  }

  /**
   * The entry of a flagged component, read at its last position `i`, is its
   * object's flag from before, or true when a flagged component before `i`
   * had already switched that object on.
   */
  lemma {:induction false} BakeStartRecords(prev: map<AutoDisable, bool>, active: map<GameObject, bool>, components: seq<AutoDisable>)
    requires forall i :: 0 <= i < |components| ==> components[i].gameObject in active
    ensures forall i :: 0 <= i < |components| && components[i].enableDuringLightBake && LastBefore(components, i, |components|) ==>
      var r := BakeStart(prev, active, components);
      && components[i] in r.0
      && r.0[components[i]] == (active[components[i].gameObject] || ActivatedBefore(components, i, components[i].gameObject))
    decreases |components|
  {
    if components != [] {
      var n := |components| - 1;
      var pre := components[..n];
      BakeStartRecords(prev, active, pre);
      BakeStartFlags(prev, active, pre);
      forall i | 0 <= i < n && components[i].enableDuringLightBake && LastBefore(components, i, |components|)
        ensures LastBefore(pre, i, n)
        ensures ActivatedBefore(pre, i, components[i].gameObject) == ActivatedBefore(components, i, components[i].gameObject)
      {
        if ActivatedBefore(components, i, components[i].gameObject) {
          var j :| 0 <= j < i && components[j].enableDuringLightBake && components[j].gameObject == components[i].gameObject;
          assert pre[j] == components[j];
        }
      }
      var g := components[n].gameObject;
      if ActivatedBefore(components, n, g) {
        var j :| 0 <= j < n && components[j].enableDuringLightBake && components[j].gameObject == g;
        assert pre[j] == components[j];
      }
    }
  }

  /** When every flagged object is already active, every flagged component records true. */
  lemma {:induction false} BakeStartRecordsActive(prev: map<AutoDisable, bool>, active: map<GameObject, bool>, components: seq<AutoDisable>)
    requires forall i :: 0 <= i < |components| ==> components[i].gameObject in active
    requires forall i :: 0 <= i < |components| && components[i].enableDuringLightBake ==> active[components[i].gameObject]
    ensures forall c :: c in components && c.enableDuringLightBake ==>
      c in BakeStart(prev, active, components).0 && BakeStart(prev, active, components).0[c]
    ensures forall g :: g in active && active[g] ==> BakeStart(prev, active, components).1[g]
    decreases |components|
  {
    if components != [] {
      var n := |components| - 1;
      BakeStartRecordsActive(prev, active, components[..n]);
      assert forall c :: c in components ==> c in components[..n] || c == components[n];
    }
  }

  /**
   * Starting from an empty map, with no object carrying two flagged
   * components, each flagged component records its own object's flag from
   * before, and no two entries share an object.
   */
  lemma BakeStartFromEmpty(active: map<GameObject, bool>, components: seq<AutoDisable>)
    requires forall i :: 0 <= i < |components| ==> components[i].gameObject in active
    requires forall i, j :: 0 <= i < j < |components| && components[i].enableDuringLightBake && components[j].enableDuringLightBake ==>
      components[i].gameObject != components[j].gameObject
    ensures var r := BakeStart(map[], active, components).0;
      && r.Keys == Flagged(components)
      && (forall i :: 0 <= i < |components| && components[i].enableDuringLightBake ==>
            r[components[i]] == active[components[i].gameObject])
      && (forall c, d :: c in r && d in r && c.gameObject == d.gameObject ==> c == d)
  {
    BakeStartEntries(map[], active, components);
    BakeStartRecords(map[], active, components);
    forall i | 0 <= i < |components| && components[i].enableDuringLightBake
      ensures LastBefore(components, i, |components|)
      ensures !ActivatedBefore(components, i, components[i].gameObject)
    {
    }
  }

  /**
   * OnBakeCompleted on values, for the live recorded components visited in
   * `order`: each sets its object's flag to its recorded value, so the last
   * one visited on an object decides it. A Dictionary that has only had
   * entries added enumerates them in insertion order.
   */
  function RestoreInOrder(m: map<AutoDisable, bool>, active: map<GameObject, bool>, order: seq<AutoDisable>)
    : (r: map<GameObject, bool>)
    requires forall i :: 0 <= i < |order| ==> order[i] in m && order[i].gameObject in active
    ensures r.Keys == active.Keys
    ensures forall g :: g in active && (forall i :: 0 <= i < |order| ==> order[i].gameObject != g) ==> r[g] == active[g]
    decreases |order|
  {
    if order == [] then active
    else
      var n := |order| - 1;
      var a := RestoreInOrder(m, active, order[..n]);
      a[order[n].gameObject := m[order[n]]]
  }

  /**
   * An inactive object carrying two flagged components, visited in that
   * order: the first records false and switches the object on, so the second
   * records true, and a completion that restores in insertion order leaves
   * the object active although it was inactive before the bake.
   */
  lemma SiblingsBreakRoundTrip(first: AutoDisable, second: AutoDisable, active: map<GameObject, bool>)
    requires first != second && first.gameObject == second.gameObject
    requires first.enableDuringLightBake && second.enableDuringLightBake
    requires first.gameObject in active && !active[first.gameObject]
    ensures var r := BakeStart(map[], active, [first, second]);
      && r.0 == map[first := false, second := true]
      && RestoreInOrder(r.0, r.1, [first, second])[first.gameObject]
  {
    var g := first.gameObject;
    assert [first][..0] == [];
    assert [first, second][..1] == [first];
    assert BakeStart(map[], active, []) == (map[], active);
    assert BakeStart(map[], active, [first]) == (map[][first := active[g]], active[g := true]);
    var one := BakeStart(map[], active, [first]);
    assert one == (map[first := false], active[g := true]);
    var r := BakeStart(map[], active, [first, second]);
    assert r == (one.0[second := true], one.1[g := true]);
    assert r.0 == map[first := false, second := true];
    assert RestoreInOrder(r.0, r.1, [first]) == r.1[g := false];
    assert RestoreInOrder(r.0, r.1, [first, second]) == RestoreInOrder(r.0, r.1, [first])[g := true];
  }

  /**
   * The recording pass of a bake start that reads every flag before
   * switching anything on: each flagged component records its object's flag
   * from `active`, which the pass leaves as it is.
   */
  function RecordFlags(prev: map<AutoDisable, bool>, active: map<GameObject, bool>, components: seq<AutoDisable>)
    : (r: map<AutoDisable, bool>)
    requires forall i :: 0 <= i < |components| ==> components[i].gameObject in active
    decreases |components|
  {
    if components == [] then prev
    else
      var n := |components| - 1;
      var p := RecordFlags(prev, active, components[..n]);
      var c := components[n];
      if c.enableDuringLightBake then p[c := active[c.gameObject]] else p
  }

  /**
   * The recording pass adds an entry for each flagged component, holding
   * its object's flag from before the start, and keeps the other entries.
   */
  lemma {:induction false} RecordFlagsEntries(prev: map<AutoDisable, bool>, active: map<GameObject, bool>, components: seq<AutoDisable>)
    requires forall i :: 0 <= i < |components| ==> components[i].gameObject in active
    ensures var r := RecordFlags(prev, active, components);
      && r.Keys == prev.Keys + Flagged(components)
      && (forall c :: c in components && c.enableDuringLightBake ==> r[c] == active[c.gameObject])
      && (forall c :: c in prev && c !in Flagged(components) ==> r[c] == prev[c])
    decreases |components|
  {
    if components != [] {
      var n := |components| - 1;
      RecordFlagsEntries(prev, active, components[..n]);
      assert components == components[..n] + [components[n]];
      assert Flagged(components) == Flagged(components[..n]) + (if components[n].enableDuringLightBake then {components[n]} else {});
    }
  }

  /**
   * Starting from an empty map, the recording pass holds exactly the flagged
   * components, each with its object's flag from before, so components that
   * share an object hold the same flag.
   */
  lemma RecordFlagsFromEmpty(active: map<GameObject, bool>, components: seq<AutoDisable>)
    requires forall i :: 0 <= i < |components| ==> components[i].gameObject in active
    ensures var r := RecordFlags(map[], active, components);
      && r.Keys == Flagged(components)
      && (forall c :: c in r ==> c.gameObject in active && r[c] == active[c.gameObject])
      && (forall c, d :: c in r && d in r && c.gameObject == d.gameObject ==> r[c] == r[d])
  {
    RecordFlagsEntries(map[], active, components);
    var r := RecordFlags(map[], active, components);
    forall c | c in r
      ensures c.gameObject in active && r[c] == active[c.gameObject]
    {
      assert c in Flagged(components);
      var i :| 0 <= i < |components| && components[i] == c;
    }
  }

  class AutoDisableEditor {
    var previousStates: map<AutoDisable, bool>

    constructor ()
      ensures previousStates == map[]
    {
      previousStates := map[];
    }

    /** The objects of the recorded components that still exist: what a restore may switch. */
    ghost function LiveObjects(): set<GameObject>
      reads this, previousStates.Keys
    {
      set c | c in previousStates && !c.destroyed :: c.gameObject
    }

    /**
     * OnBakeStarted, given every AutoDisable component (Resources.FindObjectsOfTypeAll):
     * the map and the objects' flags become what BakeStart computes. The map
     * is not cleared first, and only flagged components' objects change.
     */
    method OnBakeStarted(components: seq<AutoDisable>)
      modifies this, FlaggedObjects(components)
      ensures (previousStates, Flags(components)) == BakeStart(old(previousStates), old(Flags(components)), components)
    {
      ghost var before := Flags(components);
      for n := 0 to |components|
        invariant (previousStates, Flags(components)) == BakeStart(old(previousStates), before, components[..n])
      {
        var comp := components[n];
        ghost var flags := Flags(components);
        if comp.enableDuringLightBake {
          previousStates := previousStates[comp := comp.gameObject.activeSelf];
          comp.gameObject.activeSelf := true;
          assert Flags(components) == flags[comp.gameObject := true];
        }
        assert components[..n + 1][..n] == components[..n];
      }
      assert components[..|components|] == components;
    }

    /**
     * OnBakeCompleted: every recorded component that still exists has its
     * object set to the recorded flag, in the dictionary's order, and the map
     * is cleared. Each switched object ends with the flag recorded for one of
     * its components; when all of its live components recorded the same flag,
     * that is the flag.
     */
    method OnBakeCompleted()
      modifies this, LiveObjects()
      ensures previousStates == map[]
      ensures forall g :: g in old(LiveObjects()) ==>
        exists c :: c in old(previousStates) && !c.destroyed && c.gameObject == g && g.activeSelf == old(previousStates)[c]
      ensures forall c :: c in old(previousStates) && !c.destroyed && Agree(old(previousStates), c.gameObject) ==>
        c.gameObject.activeSelf == old(previousStates)[c]
    {
      var m := previousStates;
      var remaining := m.Keys;
      // The component whose entry each switched object last received.
      ghost var writer: map<GameObject, AutoDisable> := map[];
      while remaining != {}
        invariant remaining <= m.Keys
        invariant forall c :: c in m && c !in remaining && !c.destroyed ==> c.gameObject in writer
        invariant forall g :: g in writer ==>
          writer[g] in m && !writer[g].destroyed && writer[g].gameObject == g && g.activeSelf == m[writer[g]]
        invariant forall c :: c in m && !c.destroyed && c.gameObject !in writer ==>
          c.gameObject.activeSelf == old(c.gameObject.activeSelf)
        decreases remaining
      {
        var c :| c in remaining;
        if !c.destroyed {
          c.gameObject.activeSelf := m[c];
          writer := writer[c.gameObject := c];
        }
        remaining := remaining - {c};
      }
      forall g | g in old(LiveObjects())
        ensures exists c :: c in m && !c.destroyed && c.gameObject == g && g.activeSelf == m[c]
      {
        var c :| c in m && !c.destroyed && c.gameObject == g;
        assert writer[g] in m;
      }
      previousStates := map[];
    }

    /**
     * CheckBakeStatus, each editor update; `isRunning` is Lightmapping.isRunning.
     * With no bake running and entries recorded it completes the bake;
     * otherwise it changes nothing. Without a running bake it always leaves the
     * map empty, so a second call straight after it is a no-op.
     */
    method CheckBakeStatus(isRunning: bool)
      modifies this, LiveObjects()
      ensures isRunning || |old(previousStates)| == 0 ==> unchanged(this) && unchanged(old(LiveObjects()))
      ensures !isRunning ==> previousStates == map[]
      ensures !isRunning && |old(previousStates)| > 0 ==>
        forall c :: c in old(previousStates) && !c.destroyed && Agree(old(previousStates), c.gameObject) ==>
          c.gameObject.activeSelf == old(previousStates)[c]
    {
      if !isRunning && |previousStates| > 0 {
        OnBakeCompleted();
      }
    }

    /**
     * A bake from start to completion, with nothing else happening in between,
     * gives every flagged object back the flag it had before the bake. This
     * needs a map that is empty when the bake starts (as every completion
     * leaves it), live components, and no object carrying two flagged
     * components.
     */
    method BakeRoundTrip(components: seq<AutoDisable>)
      requires previousStates == map[]
      requires forall c :: c in components ==> !c.destroyed
      requires forall i, j :: 0 <= i < j < |components| && components[i].enableDuringLightBake && components[j].enableDuringLightBake ==>
        components[i].gameObject != components[j].gameObject
      modifies this, FlaggedObjects(components)
      ensures previousStates == map[]
      ensures forall c :: c in components && c.enableDuringLightBake ==> c.gameObject.activeSelf == old(c.gameObject.activeSelf)
    {
      ghost var before := Flags(components);
      OnBakeStarted(components);
      BakeStartFromEmpty(before, components);
      ghost var recorded := previousStates;
      forall c | c in recorded
        ensures Agree(recorded, c.gameObject)
      {
      }
      OnBakeCompleted();
      forall c | c in components && c.enableDuringLightBake
        ensures c.gameObject.activeSelf == before[c.gameObject]
      {
        var i :| 0 <= i < |components| && components[i] == c;
        assert c in recorded;
      }
    }

    /** The recording pass on its own: the map with every flagged component's current object flag added. */
    method RecordPass(components: seq<AutoDisable>) returns (recorded: map<AutoDisable, bool>)
      ensures recorded == RecordFlags(previousStates, Flags(components), components)
    {
      recorded := previousStates;
      for n := 0 to |components|
        invariant recorded == RecordFlags(previousStates, Flags(components), components[..n])
      {
        var comp := components[n];
        if comp.enableDuringLightBake {
          recorded := recorded[comp := comp.gameObject.activeSelf];
        }
        assert components[..n + 1][..n] == components[..n];
      }
      assert components[..|components|] == components;
    }

    /**
     * The bake start as evidently intended: every flagged component first
     * records its object's flag, and only then are the flagged objects
     * switched on, so components sharing an object record the same flag.
     */
    method OnBakeStartedRecordingFirst(components: seq<AutoDisable>)
      modifies this, FlaggedObjects(components)
      ensures previousStates == RecordFlags(old(previousStates), old(Flags(components)), components)
      ensures Flags(components) == BakeStart(old(previousStates), old(Flags(components)), components).1
    {
      ghost var before := Flags(components);
      previousStates := RecordPass(components);
      ghost var recorded := previousStates;
      for n := 0 to |components|
        invariant previousStates == recorded
        invariant Flags(components) == BakeStart(old(previousStates), before, components[..n]).1
      {
        var comp := components[n];
        ghost var flags := Flags(components);
        if comp.enableDuringLightBake {
          comp.gameObject.activeSelf := true;
          assert Flags(components) == flags[comp.gameObject := true];
        }
        assert components[..n + 1][..n] == components[..n];
      }
      assert components[..|components|] == components;
    }

    /**
     * With the recording-first start, a bake from start to completion gives
     * every flagged object back its flag from before the bake, also when one
     * object carries several flagged components.
     */
    method BakeRoundTripRecordingFirst(components: seq<AutoDisable>)
      requires previousStates == map[]
      requires forall c :: c in components ==> !c.destroyed
      modifies this, FlaggedObjects(components)
      ensures previousStates == map[]
      ensures forall c :: c in components && c.enableDuringLightBake ==> c.gameObject.activeSelf == old(c.gameObject.activeSelf)
    {
      ghost var before := Flags(components);
      OnBakeStartedRecordingFirst(components);
      RecordFlagsFromEmpty(before, components);
      ghost var recorded := previousStates;
      forall c | c in recorded
        ensures Agree(recorded, c.gameObject)
      {
      }
      OnBakeCompleted();
      forall c | c in components && c.enableDuringLightBake
        ensures c.gameObject.activeSelf == before[c.gameObject]
      {
        var i :| 0 <= i < |components| && components[i] == c;
        assert c in recorded;
      }
    }

    /**
     * Two bake starts without a completion in between: the second overwrites
     * every flagged component's entry with the flag the first one set, true.
     */
    method RestartedBake(components: seq<AutoDisable>)
      modifies this, FlaggedObjects(components)
      ensures forall c :: c in components && c.enableDuringLightBake ==> c in previousStates && previousStates[c]
    {
      ghost var before := Flags(components);
      OnBakeStarted(components);
      BakeStartFlags(old(previousStates), before, components);
      forall i | 0 <= i < |components| && components[i].enableDuringLightBake
        ensures ActivatedBefore(components, |components|, components[i].gameObject)
      {
      }
      ghost var middle := previousStates;
      OnBakeStarted(components);
      BakeStartRecordsActive(middle, BakeStart(old(previousStates), before, components).1, components);
    }
  }

  /** Every live recorded component on `g` recorded the same flag. */
  ghost predicate Agree(m: map<AutoDisable, bool>, g: GameObject)
    reads m.Keys
  {
    forall c, d :: c in m && d in m && !c.destroyed && !d.destroyed && c.gameObject == g && d.gameObject == g ==> m[c] == m[d]
  }
}
