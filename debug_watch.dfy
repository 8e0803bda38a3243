/**
 * The global debug-watch map `__gdwp__`: named watches on engine values,
 * added, removed and visited by the editor's watch panel.
 */
module DebugWatch {

  datatype WatchType =
    | WatchString
    | WatchPointer
    | WatchInt
    | WatchFloat
    | WatchDouble
    | WatchUint32
    | WatchFloat2
    | WatchFloat3

  /** An address; 0 is the null pointer. */
  type Pointer = nat

  /** `SportsDebugWatchInfo`. */
  datatype WatchInfo = WatchInfo(name: string, watchType: WatchType, value: Pointer, editable: bool)

  class WatchRegistry {
    var watches: map<string, WatchInfo>

    /** Every watch is stored under its own name. */
    ghost predicate Valid()
      reads this
    {
      forall k :: k in watches ==> watches[k].name == k
    }

    constructor ()
      ensures Valid() && watches == map[]
    {
      watches := map[];
    }

    /** `SportsDebugAddWatch`: store the watch under its name, replacing any earlier one. */
    method AddWatch(name: string, watchType: WatchType, ptr: Pointer, editable: bool := false)
      requires Valid()
      modifies this
      ensures Valid()
      ensures watches == old(watches)[name := WatchInfo(name, watchType, ptr, editable)]
    {
      watches := watches[name := WatchInfo(name, watchType, ptr, editable)];
    }

    /** `SportsDebugRemoveWatch`: erase the name if present. */
    method RemoveWatch(name: string)
      requires Valid()
      modifies this
      ensures Valid()
      ensures watches == old(watches) - {name}
      ensures name !in old(watches) ==> watches == old(watches)
    {
      watches := watches - {name};
    }

    /**
     * `SportsDebugWatchIteration`: the callback is applied to every stored
     * watch exactly once, in an order the hash map does not specify; the
     * result is the sequence of watches it was applied to.
     */
    method WatchIteration() returns (visited: seq<WatchInfo>)
      requires Valid()
      ensures |visited| == |watches|
      ensures forall i :: 0 <= i < |visited| ==> visited[i].name in watches && watches[visited[i].name] == visited[i]
      ensures forall i, j :: 0 <= i < j < |visited| ==> visited[i].name != visited[j].name
      ensures forall k :: k in watches ==> exists i :: 0 <= i < |visited| && visited[i] == watches[k]
    {
      var remaining := watches.Keys;
      visited := [];
      while remaining != {}
        invariant remaining <= watches.Keys
        invariant |visited| + |remaining| == |watches.Keys|
        invariant forall i :: 0 <= i < |visited| ==>
          visited[i].name in watches && visited[i].name !in remaining && watches[visited[i].name] == visited[i]
        invariant forall i, j :: 0 <= i < j < |visited| ==> visited[i].name != visited[j].name
        invariant forall k :: k in watches && k !in remaining ==> exists i :: 0 <= i < |visited| && visited[i] == watches[k]
        decreases remaining
      {
        var k :| k in remaining;
        ghost var before := visited;
        visited := visited + [watches[k]];
        remaining := remaining - {k};
        forall k' | k' in watches && k' !in remaining
          ensures exists i :: 0 <= i < |visited| && visited[i] == watches[k']
        {
          if k' == k {
            assert visited[|before|] == watches[k'];
          } else {
            var i :| 0 <= i < |before| && before[i] == watches[k'];
            assert visited[i] == watches[k'];
          }
        }
      }
    }
  }
}
