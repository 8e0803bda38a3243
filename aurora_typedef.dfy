/**
 * `Vector<T>`, the engine's wrapper over `std::vector<T>`, and the erase-at-
 * index operation behind its `remove` and behind the window's callback list.
 */
module AuroraTypedef {

  /** `erase(begin() + i)`: drop element `i`, close the gap, keep the order. */
  function EraseAt<T>(s: seq<T>, i: nat): (r: seq<T>)
    requires i < |s|
    ensures |r| == |s| - 1
    ensures forall j :: 0 <= j < i ==> r[j] == s[j]
    ensures forall j :: i <= j < |r| ==> r[j] == s[j + 1]
    ensures multiset(r) + multiset{s[i]} == multiset(s)
  {
    assert s == s[..i] + [s[i]] + s[i + 1..];
    s[..i] + s[i + 1..]
  }

  class Vector<T> {
    var elements: seq<T>

    constructor (init: seq<T>)
      ensures elements == init
    {
      elements := init;
    }

    /** `Vector<T>::remove(index)`; an index past the end is undefined in the source. */
    method Remove(index: nat)
      requires index < |elements|
      modifies this
      ensures elements == EraseAt(old(elements), index)
    {
      elements := elements[..index] + elements[index + 1..];
    }
  }
}
